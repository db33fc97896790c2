/**
 * `JavaFoldingBuilder`: when a Java file is opened with collapse-by-default
 * set, one collapsed fold per logger call, found by a pre-order walk.
 */
module JavaFoldingBuilder {
  import opened Psi
  import PsiHelper
  import JavaPsiHelper

  /** The descriptors for the logger calls among `nodes`, in their order, each with the Java fold span. */
  function Descriptors(nodes: seq<Element>, canonicalNames: set<string>): seq<FoldingDescriptor> {
    if nodes == [] then []
    else
      var last := nodes[|nodes| - 1];
      Descriptors(nodes[..|nodes| - 1], canonicalNames) +
      (if JavaPsiHelper.IsALoggerMethodCall(last, canonicalNames) then [FoldingDescriptor(last, PsiHelper.FoldRange(last))] else [])
  }

  /**
   * Exactly the logger calls get a descriptor: every descriptor is for a
   * matching node of the list with its fold span, and every matching node
   * has one.
   */
  lemma {:induction false} DescriptorsExactlyForMatches(nodes: seq<Element>, canonicalNames: set<string>)
    ensures |Descriptors(nodes, canonicalNames)| <= |nodes|
    ensures forall d :: d in Descriptors(nodes, canonicalNames) ==>
      d.element in nodes && JavaPsiHelper.IsALoggerMethodCall(d.element, canonicalNames) &&
      d.range == PsiHelper.FoldRange(d.element)
    ensures forall n :: n in nodes && JavaPsiHelper.IsALoggerMethodCall(n, canonicalNames) ==>
      FoldingDescriptor(n, PsiHelper.FoldRange(n)) in Descriptors(nodes, canonicalNames)
  {
    if nodes != [] {
      var init, last := nodes[..|nodes| - 1], nodes[|nodes| - 1];
      assert nodes == init + [last];
      DescriptorsExactlyForMatches(init, canonicalNames);
    }
  }

  lemma {:induction false} DescriptorsAppend(a: seq<Element>, b: seq<Element>, canonicalNames: set<string>)
    ensures Descriptors(a + b, canonicalNames) == Descriptors(a, canonicalNames) + Descriptors(b, canonicalNames)
  {
    if b == [] {
      assert a + b == a;
    } else {
      var init := b[..|b| - 1];
      assert (a + b)[..|a + b| - 1] == a + init;
      assert (a + b)[|a + b| - 1] == b[|b| - 1];
      DescriptorsAppend(a, init, canonicalNames);
    }
  }

  /** The node itself is visited first: it contributes its own descriptor exactly when it is a logger call. */
  lemma VisitedStart(e: Element, foldingDescriptors: seq<FoldingDescriptor>, r: seq<FoldingDescriptor>, canonicalNames: set<string>)
    requires r == if JavaPsiHelper.IsALoggerMethodCall(e, canonicalNames) then foldingDescriptors + [FoldingDescriptor(e, PsiHelper.FoldRange(e))] else foldingDescriptors
    ensures r == foldingDescriptors + Descriptors([e] + PreOrderOfAll(e.children[..0]), canonicalNames)
  {
    assert e.children[..0] == [];
    assert [e][..0] == [];
  }

  /** Once every child is walked, the whole subtree is. */
  lemma VisitedAll(e: Element, foldingDescriptors: seq<FoldingDescriptor>, r: seq<FoldingDescriptor>, canonicalNames: set<string>)
    requires r == foldingDescriptors + Descriptors([e] + PreOrderOfAll(e.children[..|e.children|]), canonicalNames)
    ensures r == foldingDescriptors + Descriptors(PreOrder(e), canonicalNames)
  {
    assert e.children[..|e.children|] == e.children;
  }

  /** Walking child `i` after the node and its first `i` children extends the descriptors by the child's own. */
  lemma VisitedStep(e: Element, i: nat, canonicalNames: set<string>)
    requires i < |e.children|
    ensures Descriptors([e] + PreOrderOfAll(e.children[..i + 1]), canonicalNames) ==
      Descriptors([e] + PreOrderOfAll(e.children[..i]), canonicalNames) + Descriptors(PreOrder(e.children[i]), canonicalNames)
  {
    PreOrderOfPrefix(e.children, i);
    assert [e] + PreOrderOfAll(e.children[..i + 1]) == ([e] + PreOrderOfAll(e.children[..i])) + PreOrder(e.children[i]);
    DescriptorsAppend([e] + PreOrderOfAll(e.children[..i]), PreOrder(e.children[i]), canonicalNames);
  }

  /**
   * The recursive `buildFoldRegions(element, descriptors, state)`: appends a
   * descriptor for the element if it is a logger call, then descends into
   * every child. The shared list is passed in and handed back.
   */
  method CollectFoldRegions(psiElement: Element, foldingDescriptors: seq<FoldingDescriptor>, canonicalNames: set<string>)
    returns (r: seq<FoldingDescriptor>)
    ensures r == foldingDescriptors + Descriptors(PreOrder(psiElement), canonicalNames)
    decreases psiElement
  {
    r := foldingDescriptors;
    if JavaPsiHelper.IsALoggerMethodCall(psiElement, canonicalNames) {
      var textRange := JavaPsiHelper.GetTextRange(psiElement);
      r := r + [FoldingDescriptor(psiElement, textRange)];
    }
    var children := psiElement.children;
    VisitedStart(psiElement, foldingDescriptors, r, canonicalNames);
    for i := 0 to |children|
      invariant r == foldingDescriptors + Descriptors([psiElement] + PreOrderOfAll(children[..i]), canonicalNames)
    {
      r := CollectFoldRegions(children[i], r, canonicalNames);
      VisitedStep(psiElement, i, canonicalNames);
    }
    VisitedAll(psiElement, foldingDescriptors, r, canonicalNames);
  }

  /**
   * `buildFoldRegions(root, document, quick)`: nothing unless the root is a
   * Java file, `quick` is off and collapse-by-default is on; otherwise one
   * descriptor per logger call of the tree, in pre-order.
   */
  method BuildFoldRegions(psiElement: Element, quick: bool, collapseByDefault: bool, canonicalNames: set<string>)
    returns (descriptors: seq<FoldingDescriptor>)
    ensures !IsFileOfType(psiElement, JavaFile) || quick || !collapseByDefault ==> descriptors == []
    ensures IsFileOfType(psiElement, JavaFile) && !quick && collapseByDefault ==>
      descriptors == Descriptors(PreOrder(psiElement), canonicalNames)
  {
    if !IsFileOfType(psiElement, JavaFile) || quick || !collapseByDefault {
      return [];
    }
    descriptors := CollectFoldRegions(psiElement, [], canonicalNames);
  }

  /** `getPlaceholderText(node)`: the Java helper's placeholder for the folded call. */
  method GetPlaceholderText(astNode: Element) returns (placeholderText: string)
    requires astNode.kind.PsiMethodCallExpression?
    ensures placeholderText == JavaPsiHelper.Placeholder(astNode)
  {
    placeholderText := JavaPsiHelper.GetPlaceholderText(astNode);
  }

  /** `isCollapsedByDefault`: every region this builder reports starts collapsed. */
  predicate IsCollapsedByDefault(astNode: Element)
    ensures IsCollapsedByDefault(astNode)
  {
    true
  }
}
