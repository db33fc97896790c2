/**
 * The host's syntax tree (IntelliJ PSI) as the recognition engine sees it.
 *
 * Every query the engine puts to a node is a field here: what kind of node it
 * is (and, per kind, the parts it asks for), its text range, its children and
 * the next siblings it scans for a `;` token. A query that can answer `null`
 * is an `Option`. How the host computes the answers (types, resolution,
 * imports) is not modelled: the answers are inputs.
 */
module Psi {
  import opened Wrappers

  function Min(a: int, b: int): int { if a <= b then a else b }
  function Max(a: int, b: int): int { if a <= b then b else a }

  /** A half-open offset range `[startOffset, endOffset)` of the document. */
  datatype TextRange = TextRange(startOffset: int, endOffset: int) {

    predicate Contains(other: TextRange) {
      startOffset <= other.startOffset && other.endOffset <= endOffset
    }

    /** `TextRange.union`: the smallest range that contains both ranges. */
    function Union(other: TextRange): (r: TextRange)
      ensures r.Contains(this) && r.Contains(other)
      ensures forall t: TextRange :: t.Contains(this) && t.Contains(other) ==> t.Contains(r)
    {
      TextRange(Min(startOffset, other.startOffset), Max(endOffset, other.endOffset))
    }
  }

  /** The kind of file a `PsiFile` is: `PsiJavaFile`, Kotlin's `KtFile`, or any other. */
  datatype FileType = JavaFile | KotlinFile | OtherFile

  // ---------------------------------------------------------------- Java

  /**
   * A `PsiReferenceExpression` used as a qualifier: whether it is itself
   * qualified (`a.b.log`), its canonical text, and the canonical text of the
   * single-name import of its bare name, looked up in the containing file's
   * import list. `None` there covers each missing link of that lookup: no
   * import list, no single import for the name, or no import reference.
   */
  datatype ReferenceExpression = ReferenceExpression(
    isQualified: bool,
    canonicalText: string,
    singleImportCanonicalText: Option<string>)

  /**
   * The qualifier (receiver) of a Java method call: the canonical text of its
   * static type when the host knows it, and its reference-expression view
   * when it is a `PsiReferenceExpression`.
   */
  datatype QualifierExpression = QualifierExpression(
    typeCanonicalText: Option<string>,
    reference: Option<ReferenceExpression>)

  /** The method expression of a call (`log.info` in `log.info(x)`): its text and its qualifier. */
  datatype MethodExpression = MethodExpression(text: string, qualifier: Option<QualifierExpression>)

  // -------------------------------------------------------------- Kotlin

  /** A child of a Kotlin call selector (`info("x") { … }`). */
  datatype KtSelectorChild =
    | KtValueArgumentList(text: string)
    | KtLambdaArgument(text: string)
    | KtOtherSelectorChild(text: string)

  /** The selector of a dot-qualified expression: whether it is a `KtCallExpression`, and its children. */
  datatype KtSelector = KtSelector(isCallExpression: bool, children: seq<KtSelectorChild>)

  /**
   * A declaration a Kotlin reference resolves to. A property has an optional
   * type annotation and its PSI children (where its initializer lives); a
   * named function has an optional return-type annotation.
   */
  datatype KtDeclaration =
    | KtProperty(typeReference: Option<string>, children: seq<KtPropertyChild>)
    | KtNamedFunction(typeReference: Option<string>)
    | KtOtherDeclaration

  /** A child of a property: a call expression (with its optional callee) or anything else. */
  datatype KtPropertyChild =
    | KtCallExpression(callee: Option<KtCallee>)
    | KtOtherPropertyChild

  /** A callee expression, through the resolutions of its references, in order (`None` = resolves to null). */
  datatype KtCallee = KtCallee(references: seq<Option<KtDeclaration>>)

  /** The receiver of a dot-qualified expression: its text and the resolutions of its references. */
  datatype KtReceiver = KtReceiver(text: string, references: seq<Option<KtDeclaration>>)

  // ---------------------------------------------------------------- tree

  datatype ElementKind =
    | PsiFileElement(fileType: FileType)
    | PsiMethodCallExpression(argumentCount: nat, methodExpression: MethodExpression)
    | KtDotQualifiedExpression(receiver: KtReceiver, selector: Option<KtSelector>)
    | OtherElement

  /** A following sibling, as the `;` search sees it: is it a `PsiJavaToken`, its text, its range. */
  datatype Sibling = Sibling(isJavaToken: bool, text: string, range: TextRange)

  /** A PSI element: its kind, its text range, its children and its next siblings in order. */
  datatype Element = Element(
    kind: ElementKind,
    range: TextRange,
    children: seq<Element>,
    nextSiblings: seq<Sibling>)

  predicate IsFileOfType(e: Element, t: FileType) {
    e.kind.PsiFileElement? && e.kind.fileType == t
  }

  /** Every node of the tree, each node before its children (the builders' recursion). */
  function PreOrder(e: Element): seq<Element> {
    [e] + PreOrderOfAll(e.children)
  }

  function PreOrderOfAll(cs: seq<Element>): seq<Element> {
    if cs == [] then [] else PreOrderOfAll(cs[..|cs| - 1]) + PreOrder(cs[|cs| - 1])
  }

  /**
   * Every node of the tree, each node after its children: the order in
   * which the fold and unfold actions are modelled to test nodes. The host's
   * walking visitor tests the descendants before their own children and the
   * root last; for the folds the actions leave behind, only the placeholder
   * of a span that two matches share can depend on the order.
   */
  function PostOrder(e: Element): seq<Element> {
    PostOrderOfAll(e.children) + [e]
  }

  function PostOrderOfAll(cs: seq<Element>): seq<Element> {
    if cs == [] then [] else PostOrderOfAll(cs[..|cs| - 1]) + PostOrder(cs[|cs| - 1])
  }

  /** What a folding builder returns per fold: the element and the range to fold. */
  datatype FoldingDescriptor = FoldingDescriptor(element: Element, range: TextRange)

  /** The pre-order walk reaches every node below every child, matched or not. */
  lemma {:induction false} ChildSubtreeInPreOrder(e: Element, k: nat)
    requires k < |e.children|
    ensures forall n :: n in PreOrder(e.children[k]) ==> n in PreOrder(e)
  {
    SubtreeInPreOrderOfAll(e.children, k);
  }

  lemma {:induction false} SubtreeInPreOrderOfAll(cs: seq<Element>, k: nat)
    requires k < |cs|
    ensures forall n :: n in PreOrder(cs[k]) ==> n in PreOrderOfAll(cs)
  {
    if k < |cs| - 1 {
      SubtreeInPreOrderOfAll(cs[..|cs| - 1], k);
    }
  }

  /** Walking the first `i + 1` children is walking the first `i`, then child `i`. */
  lemma PreOrderOfPrefix(cs: seq<Element>, i: nat)
    requires i < |cs|
    ensures PreOrderOfAll(cs[..i + 1]) == PreOrderOfAll(cs[..i]) + PreOrder(cs[i])
  {
    assert cs[..i + 1][..i] == cs[..i];
  }

  lemma PostOrderOfPrefix(cs: seq<Element>, i: nat)
    requires i < |cs|
    ensures PostOrderOfAll(cs[..i + 1]) == PostOrderOfAll(cs[..i]) + PostOrder(cs[i])
  {
    assert cs[..i + 1][..i] == cs[..i];
  }
}
