/**
 * `FoldLoggerMethodCallsAction` (older generation): treats the file as a
 * Java file, matches calls with the older `PsiHelper` against the fixed
 * `LoggerClasses`, and adds a collapsed region per call without looking for
 * an existing one.
 */
module LegacyFoldAction {
  import opened Wrappers
  import opened Psi
  import opened FoldingModel
  import PsiHelper
  import ActionHelper
  import FoldAction

  /** The exception the cast `(PsiJavaFile) psiFile` throws for any other file. */
  datatype Exception = ClassCastException

  const ElidedArgumentsAndSemicolon: string := "(...);"

  /**
   * `getPlaceholderText`: the method expression text, then `(...);`, with
   * the `;` whether or not one follows the call.
   */
  function Placeholder(e: Element): (r: string)
    requires e.kind.PsiMethodCallExpression?
    ensures |r| == |e.kind.methodExpression.text| + 6
    ensures r[..|e.kind.methodExpression.text|] == e.kind.methodExpression.text
    ensures r[|e.kind.methodExpression.text|..] == "(...);"
    ensures r[|r| - 1] == ';'
  {
    e.kind.methodExpression.text + ElidedArgumentsAndSemicolon
  }

  /** The folds asked for while visiting `nodes` in order. */
  function Requests(nodes: seq<Element>): seq<FoldAction.FoldRequest> {
    if nodes == [] then []
    else
      var last := nodes[|nodes| - 1];
      Requests(nodes[..|nodes| - 1]) +
      (if PsiHelper.IsLoggerCall(last) then [FoldAction.FoldRequest(PsiHelper.FoldRange(last), Placeholder(last))] else [])
  }

  /** `fold`: add a collapsed region when the model accepts the range; a refused add changes nothing. */
  function FoldStep(regions: Regions, documentLength: nat, request: FoldAction.FoldRequest): Regions {
    if CanAdd(regions, documentLength, request.range) then
      regions[request.range := FoldRegion(request.range, request.placeholderText, false)]
    else regions
  }

  function FoldAll(regions: Regions, documentLength: nat, requests: seq<FoldAction.FoldRequest>): Regions {
    if requests == [] then regions
    else FoldStep(FoldAll(regions, documentLength, requests[..|requests| - 1]), documentLength, requests[|requests| - 1])
  }

  /**
   * A range holds a region after folding iff it held one before, or it is
   * requested and the model accepts it; regions that existed are left
   * exactly as they were, expanded ones included.
   */
  lemma {:induction false} FoldAllKeepsExisting(regions: Regions, documentLength: nat, requests: seq<FoldAction.FoldRequest>)
    ensures forall range :: range in FoldAll(regions, documentLength, requests) <==>
      range in regions || (range in FoldAction.Ranges(requests) && ValidRange(range, documentLength))
    ensures forall range :: range in regions ==> FoldAll(regions, documentLength, requests)[range] == regions[range]
  {
    if requests != [] {
      var init, last := requests[..|requests| - 1], requests[|requests| - 1];
      FoldAllKeepsExisting(regions, documentLength, init);
      assert FoldAction.Ranges(requests) == FoldAction.Ranges(init) + [last.range];
    }
  }

  /** A region that folding creates is collapsed and carries the placeholder of a request for its range. */
  lemma {:induction false} FoldAllNewRegions(regions: Regions, documentLength: nat, requests: seq<FoldAction.FoldRequest>)
    ensures forall range :: range in FoldAll(regions, documentLength, requests) && range !in regions ==>
      exists q :: q in requests && q.range == range &&
        FoldAll(regions, documentLength, requests)[range] == FoldRegion(range, q.placeholderText, false)
  {
    if requests != [] {
      var init, last := requests[..|requests| - 1], requests[|requests| - 1];
      FoldAllNewRegions(regions, documentLength, init);
      var before := FoldAll(regions, documentLength, init);
      var after := FoldAll(regions, documentLength, requests);
      forall range | range in after && range !in regions
        ensures exists q :: q in requests && q.range == range && after[range] == FoldRegion(range, q.placeholderText, false)
      {
        if range in before {
          var q :| q in init && q.range == range && before[range] == FoldRegion(range, q.placeholderText, false);
          assert q in requests;
        } else {
          assert last in requests;
        }
      }
    }
  }

  /** A second run adds nothing: every range it could add already holds a region. */
  lemma FoldAllIdempotent(regions: Regions, documentLength: nat, requests: seq<FoldAction.FoldRequest>)
    ensures FoldAll(FoldAll(regions, documentLength, requests), documentLength, requests) == FoldAll(regions, documentLength, requests)
  {
    var once := FoldAll(regions, documentLength, requests);
    FoldAllKeepsExisting(regions, documentLength, requests);
    FoldAllKeepsExisting(once, documentLength, requests);
    assert FoldAll(once, documentLength, requests).Keys == once.Keys;
  }

  /**
   * Where the generations differ: a requested region the user has expanded
   * stays expanded under the older action and is collapsed by the newer.
   */
  lemma ExpandedRegionStaysExpanded(regions: Regions, documentLength: nat, requests: seq<FoldAction.FoldRequest>, range: TextRange)
    requires range in regions && regions[range].expanded && range in FoldAction.Ranges(requests)
    ensures range in FoldAll(regions, documentLength, requests) && FoldAll(regions, documentLength, requests)[range].expanded
    ensures range in FoldAction.FoldAll(regions, documentLength, requests) &&
      !FoldAction.FoldAll(regions, documentLength, requests)[range].expanded
  {
    FoldAllKeepsExisting(regions, documentLength, requests);
    FoldAction.FoldAllKeepsExisting(regions, documentLength, requests);
  }

  /** `fold(editor, textRange, placeholderText)`: add a region and collapse it if the add succeeded. */
  method Fold(editor: FoldingModel, textRange: TextRange, placeholderText: string)
    requires editor.Valid()
    modifies editor
    ensures editor.Valid()
    ensures editor.regions == FoldStep(old(editor.regions), editor.documentLength, FoldAction.FoldRequest(textRange, placeholderText))
  {
    var foldRegion := editor.AddFoldRegion(textRange.startOffset, textRange.endOffset, placeholderText);
    if foldRegion.Some? {
      editor.SetExpanded(foldRegion.value, false);
    }
  }

  lemma {:induction false} RequestsAppend(a: seq<Element>, b: seq<Element>)
    ensures Requests(a + b) == Requests(a) + Requests(b)
  {
    if b == [] {
      assert a + b == a;
    } else {
      var init := b[..|b| - 1];
      assert (a + b)[..|a + b| - 1] == a + init;
      assert (a + b)[|a + b| - 1] == b[|b| - 1];
      RequestsAppend(a, init);
    }
  }

  lemma {:induction false} FoldAllAppend(regions: Regions, documentLength: nat, a: seq<FoldAction.FoldRequest>, b: seq<FoldAction.FoldRequest>)
    ensures FoldAll(regions, documentLength, a + b) == FoldAll(FoldAll(regions, documentLength, a), documentLength, b)
  {
    if b == [] {
      assert a + b == a;
    } else {
      var init := b[..|b| - 1];
      assert (a + b)[..|a + b| - 1] == a + init;
      assert (a + b)[|a + b| - 1] == b[|b| - 1];
      FoldAllAppend(regions, documentLength, a, init);
    }
  }

  lemma VisitChildStep(regions: Regions, documentLength: nat, children: seq<Element>, i: nat)
    requires i < |children|
    ensures FoldAll(regions, documentLength, Requests(PostOrderOfAll(children[..i + 1]))) ==
      FoldAll(FoldAll(regions, documentLength, Requests(PostOrderOfAll(children[..i]))), documentLength, Requests(PostOrder(children[i])))
  {
    PostOrderOfPrefix(children, i);
    RequestsAppend(PostOrderOfAll(children[..i]), PostOrder(children[i]));
    FoldAllAppend(regions, documentLength, Requests(PostOrderOfAll(children[..i])), Requests(PostOrder(children[i])));
  }

  lemma VisitSelf(regions: Regions, documentLength: nat, e: Element)
    ensures FoldAll(regions, documentLength, Requests(PostOrder(e))) ==
      FoldAll(FoldAll(regions, documentLength, Requests(PostOrderOfAll(e.children))), documentLength, Requests([e]))
  {
    RequestsAppend(PostOrderOfAll(e.children), [e]);
    FoldAllAppend(regions, documentLength, Requests(PostOrderOfAll(e.children)), Requests([e]));
  }

  lemma RequestsOfOne(e: Element)
    ensures Requests([e]) == if PsiHelper.IsLoggerCall(e) then [FoldAction.FoldRequest(PsiHelper.FoldRange(e), Placeholder(e))] else []
  {
    assert [e][..0] == [];
  }

  /** The walking visitor's `visitElement(element)`, written as a recursion over the children, then the element itself if it is a logger call. */
  method VisitElement(editor: FoldingModel, element: Element)
    requires editor.Valid()
    modifies editor
    ensures editor.Valid()
    ensures editor.regions == FoldAll(old(editor.regions), editor.documentLength, Requests(PostOrder(element)))
    decreases element
  {
    ghost var regions := editor.regions;
    var children := element.children;
    assert children[..0] == [];
    for i := 0 to |children|
      invariant editor.Valid()
      invariant editor.regions == FoldAll(regions, editor.documentLength, Requests(PostOrderOfAll(children[..i])))
    {
      VisitElement(editor, children[i]);
      VisitChildStep(regions, editor.documentLength, children, i);
    }
    assert children[..|children|] == children;
    VisitSelf(regions, editor.documentLength, element);
    RequestsOfOne(element);
    var isLoggerCall := PsiHelper.IsALoggerMethodCall(element);
    if isLoggerCall {
      var textRange := PsiHelper.GetTextRange(element);
      var placeholderText := Placeholder(element);
      Fold(editor, textRange, placeholderText);
    }
  }

  /**
   * `actionPerformed`: nothing when the action is unavailable; a
   * `ClassCastException` and no change for an available file that is not a
   * Java file; otherwise one added, collapsed region per logger call,
   * each node after its children in the modelled walk.
   */
  method ActionPerformed(actionEvent: ActionHelper.ActionEvent, editor: FoldingModel) returns (outcome: Outcome<Exception>)
    requires editor.Valid()
    modifies editor
    ensures editor.Valid()
    ensures !ActionHelper.IsAvailable(actionEvent) ==> outcome == Pass && editor.regions == old(editor.regions)
    ensures ActionHelper.IsAvailable(actionEvent) && !IsFileOfType(actionEvent.psiFile.value, JavaFile) ==>
      outcome == Fail(ClassCastException) && editor.regions == old(editor.regions)
    ensures ActionHelper.IsAvailable(actionEvent) && IsFileOfType(actionEvent.psiFile.value, JavaFile) ==>
      outcome == Pass &&
      editor.regions == FoldAll(old(editor.regions), editor.documentLength, Requests(PostOrder(actionEvent.psiFile.value)))
  {
    if ActionHelper.IsAvailable(actionEvent) {
      var psiFile := actionEvent.psiFile.value;
      if !IsFileOfType(psiFile, JavaFile) {
        return Fail(ClassCastException);
      }
      VisitElement(editor, psiFile);
    }
    return Pass;
  }

  /**
   * The availability check admits a `KtFile`, which the cast then rejects:
   * an available event whose file is a Kotlin file is not a Java file.
   */
  lemma AvailableKotlinFileIsNotJava()
    ensures var kotlinFile := Element(PsiFileElement(KotlinFile), TextRange(0, 0), [], []);
      var actionEvent := ActionHelper.ActionEvent(true, true, Some(kotlinFile));
      ActionHelper.IsAvailable(actionEvent) && !IsFileOfType(kotlinFile, JavaFile)
  {
  }
}
