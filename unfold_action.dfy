/**
 * `UnfoldLoggerMethodCallsAction` (newer generation): walks the file and,
 * for every logger call, removes the region at exactly its span, if there
 * is one. Java files use the Java helper, every other file the Kotlin
 * helper.
 */
module UnfoldAction {
  import opened Wrappers
  import opened Psi
  import opened FoldingModel
  import PsiHelper
  import JavaPsiHelper
  import KotlinPsiHelper
  import ActionHelper
  import FoldAction

  /** The span a visited node asks to unfold: its helper range when the helper's matcher accepts it. */
  function RangeFor(language: FoldAction.Language, e: Element, canonicalNames: set<string>): Option<TextRange> {
    match language
    case Java => if JavaPsiHelper.IsALoggerMethodCall(e, canonicalNames) then Some(PsiHelper.FoldRange(e)) else None
    case Kotlin => if KotlinPsiHelper.LoggerMethodCall(e, canonicalNames) then Some(KotlinPsiHelper.GetTextRange(e)) else None
  }

  /** The spans asked to unfold while visiting `nodes` in order. */
  function MatchedRanges(language: FoldAction.Language, nodes: seq<Element>, canonicalNames: set<string>): seq<TextRange> {
    if nodes == [] then []
    else MatchedRanges(language, nodes[..|nodes| - 1], canonicalNames) + FoldAction.OptionToSeq(RangeFor(language, nodes[|nodes| - 1], canonicalNames))
  }

  /** One lookup and removal: the region at exactly the range goes, if there is one. */
  function UnfoldStep(regions: Regions, range: TextRange): Regions {
    if range in regions then regions - {range} else regions
  }

  function UnfoldAll(regions: Regions, ranges: seq<TextRange>): Regions {
    if ranges == [] then regions
    else UnfoldStep(UnfoldAll(regions, ranges[..|ranges| - 1]), ranges[|ranges| - 1])
  }

  /** Unfolding removes exactly the regions at the listed ranges and leaves every other region as it was. */
  lemma {:induction false} UnfoldAllRemovesExactly(regions: Regions, ranges: seq<TextRange>)
    ensures UnfoldAll(regions, ranges) == regions - (set range | range in ranges)
  {
    if ranges != [] {
      var init, last := ranges[..|ranges| - 1], ranges[|ranges| - 1];
      UnfoldAllRemovesExactly(regions, init);
      assert (set range | range in ranges) == (set range | range in init) + {last} by {
        assert ranges == init + [last];
      }
    }
  }

  /** The unfold action visits the same spans, in the same order, as the fold action folds. */
  lemma {:induction false} MatchedRangesAreFoldedRanges(language: FoldAction.Language, nodes: seq<Element>, canonicalNames: set<string>)
    ensures MatchedRanges(language, nodes, canonicalNames) == FoldAction.Ranges(FoldAction.Requests(language, nodes, canonicalNames))
  {
    if nodes != [] {
      var init := nodes[..|nodes| - 1];
      MatchedRangesAreFoldedRanges(language, init, canonicalNames);
      var qs := FoldAction.Requests(language, init, canonicalNames);
      var step := FoldAction.OptionToSeq(FoldAction.RequestFor(language, nodes[|nodes| - 1], canonicalNames));
      FoldAction.RangesAppend(qs, step);
    }
  }

  /**
   * Unfolding the ranges of a list of folds removes the regions at those
   * ranges, whether they existed before or the folds created them, and
   * leaves every other region exactly as it was before the folds.
   */
  lemma UnfoldUndoesFoldAll(regions: Regions, documentLength: nat, requests: seq<FoldAction.FoldRequest>)
    ensures var ranges := FoldAction.Ranges(requests);
      UnfoldAll(FoldAction.FoldAll(regions, documentLength, requests), ranges) == regions - (set range | range in ranges)
  {
    var ranges := FoldAction.Ranges(requests);
    var folded := FoldAction.FoldAll(regions, documentLength, requests);
    FoldAction.FoldAllKeys(regions, documentLength, requests);
    FoldAction.FoldAllKeepsExisting(regions, documentLength, requests);
    UnfoldAllRemovesExactly(folded, ranges);
    var unfolded := folded - (set range | range in ranges);
    var expected := regions - (set range | range in ranges);
    assert unfolded.Keys == expected.Keys;
    forall range | range in expected
      ensures unfolded[range] == expected[range]
    {
      assert range !in ranges;
    }
  }

  /**
   * The fold action followed by the unfold action over the same walk
   * leaves exactly the regions that were there before, minus those at the
   * logger-call spans.
   */
  lemma UnfoldUndoesFold(regions: Regions, documentLength: nat, language: FoldAction.Language, nodes: seq<Element>, canonicalNames: set<string>)
    ensures var requests := FoldAction.Requests(language, nodes, canonicalNames);
      var ranges := MatchedRanges(language, nodes, canonicalNames);
      UnfoldAll(FoldAction.FoldAll(regions, documentLength, requests), ranges) == regions - (set range | range in ranges)
  {
    MatchedRangesAreFoldedRanges(language, nodes, canonicalNames);
    UnfoldUndoesFoldAll(regions, documentLength, FoldAction.Requests(language, nodes, canonicalNames));
  }

  /** `getFoldRegion(editor, textRange)`: the region at exactly the range, if any. */
  method GetFoldRegion(editor: FoldingModel, textRange: TextRange) returns (r: Option<FoldRegion>)
    requires editor.Valid()
    ensures r.Some? <==> textRange in editor.regions
    ensures r.Some? ==> r.value == editor.regions[textRange] && r.value.range == textRange
  {
    r := editor.GetFoldRegion(textRange.startOffset, textRange.endOffset);
  }

  /** `removeFoldRegion(editor, foldRegion)`: that region goes, every other stays. */
  method RemoveFoldRegion(editor: FoldingModel, foldRegion: FoldRegion)
    requires editor.Valid()
    modifies editor
    ensures editor.Valid()
    ensures editor.regions == old(editor.regions) - {foldRegion.range}
  {
    editor.RemoveFoldRegion(foldRegion);
  }

  lemma UnfoldAllAppend(regions: Regions, a: seq<TextRange>, b: seq<TextRange>)
    ensures UnfoldAll(regions, a + b) == UnfoldAll(UnfoldAll(regions, a), b)
  {
    UnfoldAllRemovesExactly(regions, a + b);
    UnfoldAllRemovesExactly(regions, a);
    UnfoldAllRemovesExactly(UnfoldAll(regions, a), b);
    assert (set range | range in a + b) == (set range | range in a) + (set range | range in b);
  }

  lemma {:induction false} MatchedRangesAppend(language: FoldAction.Language, a: seq<Element>, b: seq<Element>, canonicalNames: set<string>)
    ensures MatchedRanges(language, a + b, canonicalNames) == MatchedRanges(language, a, canonicalNames) + MatchedRanges(language, b, canonicalNames)
  {
    if b == [] {
      assert a + b == a;
    } else {
      var init := b[..|b| - 1];
      assert (a + b)[..|a + b| - 1] == a + init;
      assert (a + b)[|a + b| - 1] == b[|b| - 1];
      MatchedRangesAppend(language, a, init, canonicalNames);
    }
  }

  lemma VisitChildStep(language: FoldAction.Language, regions: Regions, children: seq<Element>, i: nat, canonicalNames: set<string>)
    requires i < |children|
    ensures UnfoldAll(regions, MatchedRanges(language, PostOrderOfAll(children[..i + 1]), canonicalNames)) ==
      UnfoldAll(UnfoldAll(regions, MatchedRanges(language, PostOrderOfAll(children[..i]), canonicalNames)),
                MatchedRanges(language, PostOrder(children[i]), canonicalNames))
  {
    PostOrderOfPrefix(children, i);
    MatchedRangesAppend(language, PostOrderOfAll(children[..i]), PostOrder(children[i]), canonicalNames);
    UnfoldAllAppend(regions, MatchedRanges(language, PostOrderOfAll(children[..i]), canonicalNames),
      MatchedRanges(language, PostOrder(children[i]), canonicalNames));
  }

  lemma VisitSelf(language: FoldAction.Language, regions: Regions, e: Element, canonicalNames: set<string>)
    ensures UnfoldAll(regions, MatchedRanges(language, PostOrder(e), canonicalNames)) ==
      UnfoldAll(UnfoldAll(regions, MatchedRanges(language, PostOrderOfAll(e.children), canonicalNames)),
                FoldAction.OptionToSeq(RangeFor(language, e, canonicalNames)))
  {
    var below := PostOrderOfAll(e.children);
    assert PostOrder(e)[..|PostOrder(e)| - 1] == below;
    UnfoldAllAppend(regions, MatchedRanges(language, below, canonicalNames), FoldAction.OptionToSeq(RangeFor(language, e, canonicalNames)));
  }

  /** The removal for one visited node whose helper range is `textRange`. */
  method UnfoldRange(editor: FoldingModel, textRange: TextRange)
    requires editor.Valid()
    modifies editor
    ensures editor.Valid()
    ensures editor.regions == UnfoldStep(old(editor.regions), textRange)
  {
    var foldRegion := GetFoldRegion(editor, textRange);
    if foldRegion.Some? {
      RemoveFoldRegion(editor, foldRegion.value);
    }
  }

  /**
   * The walking visitor's `visitElement(element)`, with the walk written as
   * a recursion over the children before the region at the element's helper
   * range is removed if the helper's matcher accepts the element.
   */
  method VisitElement(language: FoldAction.Language, editor: FoldingModel, element: Element, canonicalNames: set<string>)
    requires editor.Valid()
    modifies editor
    ensures editor.Valid()
    ensures editor.regions == UnfoldAll(old(editor.regions), MatchedRanges(language, PostOrder(element), canonicalNames))
    decreases element
  {
    ghost var regions := editor.regions;
    var children := element.children;
    assert children[..0] == [];
    for i := 0 to |children|
      invariant editor.Valid()
      invariant editor.regions == UnfoldAll(regions, MatchedRanges(language, PostOrderOfAll(children[..i]), canonicalNames))
    {
      VisitElement(language, editor, children[i], canonicalNames);
      VisitChildStep(language, regions, children, i, canonicalNames);
    }
    assert children[..|children|] == children;
    VisitSelf(language, regions, element, canonicalNames);
    match language {
      case Java =>
        if JavaPsiHelper.IsALoggerMethodCall(element, canonicalNames) {
          var textRange := JavaPsiHelper.GetTextRange(element);
          UnfoldRange(editor, textRange);
        }
      case Kotlin =>
        var isLoggerCall := KotlinPsiHelper.IsALoggerMethodCall(element, canonicalNames);
        if isLoggerCall {
          var textRange := KotlinPsiHelper.GetTextRange(element);
          UnfoldRange(editor, textRange);
        }
    }
  }

  /**
   * `unfoldJavaFile`: every Java logger call's region is removed, each
   * node after its children in the modelled walk.
   */
  method UnfoldJavaFile(editor: FoldingModel, psiFile: Element, canonicalNames: set<string>)
    requires editor.Valid()
    modifies editor
    ensures editor.Valid()
    ensures editor.regions == old(editor.regions) - (set range | range in MatchedRanges(FoldAction.Java, PostOrder(psiFile), canonicalNames))
  {
    VisitElement(FoldAction.Java, editor, psiFile, canonicalNames);
    UnfoldAllRemovesExactly(old(editor.regions), MatchedRanges(FoldAction.Java, PostOrder(psiFile), canonicalNames));
  }

  /**
   * `unfoldKotlinFile`: every Kotlin logger call's region is removed, each
   * node after its children in the modelled walk.
   */
  method UnfoldKotlinFile(editor: FoldingModel, psiFile: Element, canonicalNames: set<string>)
    requires editor.Valid()
    modifies editor
    ensures editor.Valid()
    ensures editor.regions == old(editor.regions) - (set range | range in MatchedRanges(FoldAction.Kotlin, PostOrder(psiFile), canonicalNames))
  {
    VisitElement(FoldAction.Kotlin, editor, psiFile, canonicalNames);
    UnfoldAllRemovesExactly(old(editor.regions), MatchedRanges(FoldAction.Kotlin, PostOrder(psiFile), canonicalNames));
  }

  /**
   * `actionPerformed`: nothing when the action is unavailable; otherwise
   * the regions at the file's logger-call spans are removed, with the
   * helper pair for the file's kind, and all other regions stay.
   */
  method ActionPerformed(actionEvent: ActionHelper.ActionEvent, editor: FoldingModel, canonicalNames: set<string>)
    requires editor.Valid()
    modifies editor
    ensures editor.Valid()
    ensures !ActionHelper.IsAvailable(actionEvent) ==> editor.regions == old(editor.regions)
    ensures ActionHelper.IsAvailable(actionEvent) ==>
      var psiFile := actionEvent.psiFile.value;
      editor.regions == old(editor.regions) -
        (set range | range in MatchedRanges(FoldAction.LanguageOf(psiFile), PostOrder(psiFile), canonicalNames))
  {
    if !ActionHelper.IsAvailable(actionEvent) {
      return;
    }
    var psiFile := actionEvent.psiFile.value;
    if IsFileOfType(psiFile, JavaFile) {
      UnfoldJavaFile(editor, psiFile, canonicalNames);
    } else {
      UnfoldKotlinFile(editor, psiFile, canonicalNames);
    }
  }
}
