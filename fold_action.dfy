/**
 * `FoldLoggerMethodCallsAction` (newer generation): walks the file and, for
 * every logger call, reuses the region at exactly its span or adds one, and
 * collapses it. Java files use the Java helper, every other file the Kotlin
 * helper.
 */
module FoldAction {
  import opened Wrappers
  import opened Psi
  import opened FoldingModel
  import PsiHelper
  import JavaPsiHelper
  import KotlinPsiHelper
  import ActionHelper

  /** Which helper pair the visitor uses. */
  datatype Language = Java | Kotlin

  /** The helper pair the action picks for a file: Java for a `PsiJavaFile`, Kotlin for anything else. */
  function LanguageOf(psiFile: Element): Language {
    if IsFileOfType(psiFile, JavaFile) then Java else Kotlin
  }

  /** One call of `fold(editor, textRange, placeholderText)`. */
  datatype FoldRequest = FoldRequest(range: TextRange, placeholderText: string)

  /** The fold a visited node asks for: its helper span and placeholder when the helper's matcher accepts it. */
  function RequestFor(language: Language, e: Element, canonicalNames: set<string>): Option<FoldRequest> {
    match language
    case Java =>
      if JavaPsiHelper.IsALoggerMethodCall(e, canonicalNames) then
        Some(FoldRequest(PsiHelper.FoldRange(e), JavaPsiHelper.Placeholder(e)))
      else None
    case Kotlin =>
      if KotlinPsiHelper.LoggerMethodCall(e, canonicalNames) then
        Some(FoldRequest(KotlinPsiHelper.GetTextRange(e), KotlinPsiHelper.Placeholder(e)))
      else None
  }

  function OptionToSeq<T>(o: Option<T>): seq<T> {
    if o.Some? then [o.value] else []
  }

  /** The folds asked for while visiting `nodes` in order. */
  function Requests(language: Language, nodes: seq<Element>, canonicalNames: set<string>): seq<FoldRequest> {
    if nodes == [] then []
    else Requests(language, nodes[..|nodes| - 1], canonicalNames) + OptionToSeq(RequestFor(language, nodes[|nodes| - 1], canonicalNames))
  }

  /** The ranges of a list of requests, in order. */
  function Ranges(requests: seq<FoldRequest>): (r: seq<TextRange>)
    ensures |r| == |requests|
    ensures forall i :: 0 <= i < |requests| ==> r[i] == requests[i].range
  {
    if requests == [] then [] else Ranges(requests[..|requests| - 1]) + [requests[|requests| - 1].range]
  }

  lemma RangesAppend(a: seq<FoldRequest>, b: seq<FoldRequest>)
    ensures Ranges(a + b) == Ranges(a) + Ranges(b)
  {
  }

  /** `fold`: collapse the region at exactly the range, adding it first when there is none and the model accepts it. */
  function FoldStep(regions: Regions, documentLength: nat, request: FoldRequest): Regions {
    var range := request.range;
    if range in regions then regions[range := regions[range].(expanded := false)]
    else if CanAdd(regions, documentLength, range) then regions[range := FoldRegion(range, request.placeholderText, false)]
    else regions
  }

  /** The folds of a list of requests, one after another. */
  function FoldAll(regions: Regions, documentLength: nat, requests: seq<FoldRequest>): Regions {
    if requests == [] then regions
    else FoldStep(FoldAll(regions, documentLength, requests[..|requests| - 1]), documentLength, requests[|requests| - 1])
  }

  /** Every node asks for at most one fold, so a walk asks for at most as many folds as it visits nodes. */
  lemma {:induction false} RequestsExactlyForMatches(language: Language, nodes: seq<Element>, canonicalNames: set<string>)
    ensures |Requests(language, nodes, canonicalNames)| <= |nodes|
    ensures forall q :: q in Requests(language, nodes, canonicalNames) <==>
      exists n :: n in nodes && RequestFor(language, n, canonicalNames) == Some(q)
  {
    if nodes != [] {
      var init, last := nodes[..|nodes| - 1], nodes[|nodes| - 1];
      assert nodes == init + [last];
      RequestsExactlyForMatches(language, init, canonicalNames);
    }
  }

  lemma {:induction false} RequestsAppend(language: Language, a: seq<Element>, b: seq<Element>, canonicalNames: set<string>)
    ensures Requests(language, a + b, canonicalNames) == Requests(language, a, canonicalNames) + Requests(language, b, canonicalNames)
  {
    if b == [] {
      assert a + b == a;
    } else {
      var init := b[..|b| - 1];
      assert (a + b)[..|a + b| - 1] == a + init;
      assert (a + b)[|a + b| - 1] == b[|b| - 1];
      RequestsAppend(language, a, init, canonicalNames);
    }
  }

  lemma {:induction false} FoldAllAppend(regions: Regions, documentLength: nat, a: seq<FoldRequest>, b: seq<FoldRequest>)
    ensures FoldAll(regions, documentLength, a + b) == FoldAll(FoldAll(regions, documentLength, a), documentLength, b)
  {
    if b == [] {
      assert a + b == a;
    } else {
      var init := b[..|b| - 1];
      assert (a + b)[..|a + b| - 1] == a + init;
      assert (a + b)[|a + b| - 1] == b[|b| - 1];
      FoldAllAppend(regions, documentLength, a, init);
    }
  }

  /** A range holds a region after folding iff it held one before, or it is requested and the model accepts it. */
  lemma {:induction false} FoldAllKeys(regions: Regions, documentLength: nat, requests: seq<FoldRequest>)
    ensures forall range :: range in FoldAll(regions, documentLength, requests) <==>
      range in regions || (range in Ranges(requests) && ValidRange(range, documentLength))
  {
    if requests != [] {
      var init, last := requests[..|requests| - 1], requests[|requests| - 1];
      FoldAllKeys(regions, documentLength, init);
      assert Ranges(requests) == Ranges(init) + [last.range];
    }
  }

  /**
   * A region that existed keeps its placeholder; it is collapsed when its
   * range is requested and left exactly as it was otherwise.
   */
  lemma {:induction false} FoldAllKeepsExisting(regions: Regions, documentLength: nat, requests: seq<FoldRequest>)
    ensures forall range :: range in regions ==>
      range in FoldAll(regions, documentLength, requests) &&
      FoldAll(regions, documentLength, requests)[range] ==
        if range in Ranges(requests) then regions[range].(expanded := false) else regions[range]
  {
    if requests != [] {
      var init, last := requests[..|requests| - 1], requests[|requests| - 1];
      FoldAllKeepsExisting(regions, documentLength, init);
      assert Ranges(requests) == Ranges(init) + [last.range];
    }
  }

  /** A region that folding creates is collapsed and carries the placeholder of a request for its range. */
  lemma {:induction false} FoldAllNewRegions(regions: Regions, documentLength: nat, requests: seq<FoldRequest>)
    ensures forall range :: range in FoldAll(regions, documentLength, requests) && range !in regions ==>
      exists q :: q in requests && q.range == range &&
        FoldAll(regions, documentLength, requests)[range] == FoldRegion(range, q.placeholderText, false)
  {
    if requests != [] {
      var init, last := requests[..|requests| - 1], requests[|requests| - 1];
      FoldAllNewRegions(regions, documentLength, init);
      var before := FoldAll(regions, documentLength, init);
      var after := FoldAll(regions, documentLength, requests);
      forall range | range in after && range !in regions
        ensures exists q :: q in requests && q.range == range && after[range] == FoldRegion(range, q.placeholderText, false)
      {
        if range in before {
          var q :| q in init && q.range == range && before[range] == FoldRegion(range, q.placeholderText, false);
          assert q in requests;
          if range == last.range {
            assert after[range] == FoldRegion(range, q.placeholderText, false);
          }
        } else {
          assert last in requests;
        }
      }
    }
  }

  /** Every requested range ends up collapsed, or holds no region because the model refused it. */
  lemma FoldAllCollapsesRequested(regions: Regions, documentLength: nat, requests: seq<FoldRequest>)
    ensures forall q :: q in requests ==>
      if q.range in regions || ValidRange(q.range, documentLength) then
        q.range in FoldAll(regions, documentLength, requests) && !FoldAll(regions, documentLength, requests)[q.range].expanded
      else
        q.range !in FoldAll(regions, documentLength, requests)
  {
    FoldAllKeys(regions, documentLength, requests);
    FoldAllKeepsExisting(regions, documentLength, requests);
    FoldAllNewRegions(regions, documentLength, requests);
    var after := FoldAll(regions, documentLength, requests);
    forall q | q in requests
      ensures if q.range in regions || ValidRange(q.range, documentLength) then q.range in after && !after[q.range].expanded
        else q.range !in after
    {
      var i :| 0 <= i < |requests| && requests[i] == q;
      assert Ranges(requests)[i] == q.range;
      if q.range in after && q.range !in regions {
        var p :| p in requests && p.range == q.range && after[q.range] == FoldRegion(q.range, p.placeholderText, false);
      }
    }
  }

  /** Folding is idempotent: a second fold of the same requests changes nothing, and no range gets a second region. */
  lemma FoldAllIdempotent(regions: Regions, documentLength: nat, requests: seq<FoldRequest>)
    ensures FoldAll(FoldAll(regions, documentLength, requests), documentLength, requests) == FoldAll(regions, documentLength, requests)
  {
    var once := FoldAll(regions, documentLength, requests);
    var twice := FoldAll(once, documentLength, requests);
    FoldAllKeys(regions, documentLength, requests);
    FoldAllKeepsExisting(regions, documentLength, requests);
    FoldAllNewRegions(regions, documentLength, requests);
    FoldAllKeys(once, documentLength, requests);
    FoldAllKeepsExisting(once, documentLength, requests);
    assert twice.Keys == once.Keys;
    forall range | range in once
      ensures twice[range] == once[range]
    {
      if range in Ranges(requests) && range !in regions {
        var q :| q in requests && q.range == range && once[range] == FoldRegion(range, q.placeholderText, false);
      }
    }
  }

  /**
   * `fold(editor, textRange, placeholderText)`: look up the region at
   * exactly the range, add one when there is none, and collapse the region
   * if there is one now.
   */
  method Fold(editor: FoldingModel, textRange: TextRange, placeholderText: string)
    requires editor.Valid()
    modifies editor
    ensures editor.Valid()
    ensures editor.regions == FoldStep(old(editor.regions), editor.documentLength, FoldRequest(textRange, placeholderText))
  {
    var foldRegion := editor.GetFoldRegion(textRange.startOffset, textRange.endOffset);
    if foldRegion.None? {
      foldRegion := editor.AddFoldRegion(textRange.startOffset, textRange.endOffset, placeholderText);
    }
    if foldRegion.Some? {
      editor.SetExpanded(foldRegion.value, false);
    }
  }

  lemma VisitChildStep(language: Language, regions: Regions, documentLength: nat, children: seq<Element>, i: nat, canonicalNames: set<string>)
    requires i < |children|
    ensures FoldAll(regions, documentLength, Requests(language, PostOrderOfAll(children[..i + 1]), canonicalNames)) ==
      FoldAll(FoldAll(regions, documentLength, Requests(language, PostOrderOfAll(children[..i]), canonicalNames)),
              documentLength, Requests(language, PostOrder(children[i]), canonicalNames))
  {
    PostOrderOfPrefix(children, i);
    RequestsAppend(language, PostOrderOfAll(children[..i]), PostOrder(children[i]), canonicalNames);
    FoldAllAppend(regions, documentLength, Requests(language, PostOrderOfAll(children[..i]), canonicalNames),
      Requests(language, PostOrder(children[i]), canonicalNames));
  }

  lemma VisitSelf(language: Language, regions: Regions, documentLength: nat, e: Element, canonicalNames: set<string>)
    ensures FoldAll(regions, documentLength, Requests(language, PostOrder(e), canonicalNames)) ==
      FoldAll(FoldAll(regions, documentLength, Requests(language, PostOrderOfAll(e.children), canonicalNames)),
              documentLength, OptionToSeq(RequestFor(language, e, canonicalNames)))
  {
    var below := PostOrderOfAll(e.children);
    assert PostOrder(e)[..|PostOrder(e)| - 1] == below;
    FoldAllAppend(regions, documentLength, Requests(language, below, canonicalNames), OptionToSeq(RequestFor(language, e, canonicalNames)));
  }

  /**
   * The walking visitor's `visitElement(element)`, with the walk written as
   * a recursion over the children before the element itself is folded if
   * the helper's matcher accepts it.
   */
  method VisitElement(language: Language, editor: FoldingModel, element: Element, canonicalNames: set<string>)
    requires editor.Valid()
    modifies editor
    ensures editor.Valid()
    ensures editor.regions == FoldAll(old(editor.regions), editor.documentLength, Requests(language, PostOrder(element), canonicalNames))
    decreases element
  {
    ghost var regions := editor.regions;
    var children := element.children;
    assert children[..0] == [];
    for i := 0 to |children|
      invariant editor.Valid()
      invariant editor.regions == FoldAll(regions, editor.documentLength, Requests(language, PostOrderOfAll(children[..i]), canonicalNames))
    {
      VisitElement(language, editor, children[i], canonicalNames);
      VisitChildStep(language, regions, editor.documentLength, children, i, canonicalNames);
    }
    assert children[..|children|] == children;
    ghost var walked := editor.regions;
    VisitSelf(language, regions, editor.documentLength, element, canonicalNames);
    match language {
      case Java =>
        if JavaPsiHelper.IsALoggerMethodCall(element, canonicalNames) {
          var textRange := JavaPsiHelper.GetTextRange(element);
          var placeholderText := JavaPsiHelper.GetPlaceholderText(element);
          Fold(editor, textRange, placeholderText);
        }
      case Kotlin =>
        var isLoggerCall := KotlinPsiHelper.IsALoggerMethodCall(element, canonicalNames);
        if isLoggerCall {
          var textRange := KotlinPsiHelper.GetTextRange(element);
          var placeholderText := KotlinPsiHelper.GetPlaceholderText(element);
          Fold(editor, textRange, placeholderText);
        }
    }
  }

  /**
   * `actionPerformed`: nothing when the action is unavailable; otherwise
   * one fold per logger call of the file, each node after its children in
   * the modelled walk, with the helper pair for the file's kind.
   */
  method ActionPerformed(actionEvent: ActionHelper.ActionEvent, editor: FoldingModel, canonicalNames: set<string>)
    requires editor.Valid()
    modifies editor
    ensures editor.Valid()
    ensures !ActionHelper.IsAvailable(actionEvent) ==> editor.regions == old(editor.regions)
    ensures ActionHelper.IsAvailable(actionEvent) ==>
      var psiFile := actionEvent.psiFile.value;
      editor.regions == FoldAll(old(editor.regions), editor.documentLength, Requests(LanguageOf(psiFile), PostOrder(psiFile), canonicalNames))
  {
    if !ActionHelper.IsAvailable(actionEvent) {
      return;
    }
    var psiFile := actionEvent.psiFile.value;
    if IsFileOfType(psiFile, JavaFile) {
      VisitElement(Java, editor, psiFile, canonicalNames);
    } else {
      VisitElement(Kotlin, editor, psiFile, canonicalNames);
    }
  }
}
