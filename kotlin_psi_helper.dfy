/**
 * `KotlinPsiHelper`: decides whether a Kotlin element is a logger method call
 * by resolving the receiver to a property and reading its declared or
 * inferred type, and computes the placeholder. The fold span of a Kotlin
 * call is the element's own range (`getTextRange`), with no `;` widening.
 */
module KotlinPsiHelper {
  import opened Wrappers
  import opened Psi
  import PsiHelper

  /** The first non-null resolution among a reference list, in order. */
  function FirstResolved(references: seq<Option<KtDeclaration>>): (r: Option<KtDeclaration>)
    ensures r.None? <==> forall i :: 0 <= i < |references| ==> references[i].None?
    ensures r.Some? ==>
      exists i :: 0 <= i < |references| && references[i] == r && forall j :: 0 <= j < i ==> references[j].None?
  {
    if references == [] then None
    else if references[0].Some? then references[0]
    else
      var r := FirstResolved(references[1..]);
      assert r.Some? ==> exists i :: (0 <= i < |references[1..]| && references[1..][i] == r &&
        forall j :: 0 <= j < i ==> references[1..][j].None?);
      assert forall i :: 0 <= i < |references[1..]| ==> references[1..][i] == references[i + 1];
      r
  }

  /** `resolveReference`: resolves the references in order and stops at the first non-null result. */
  method ResolveReference(references: seq<Option<KtDeclaration>>) returns (resolvedReference: Option<KtDeclaration>)
    ensures resolvedReference == FirstResolved(references)
  {
    for i := 0 to |references|
      invariant forall j :: 0 <= j < i ==> references[j].None?
    {
      if references[i].Some? {
        return references[i];
      }
    }
    return None;
  }

  /** The position of the property's first child that is a call expression. */
  function FirstCallExpressionIndex(children: seq<KtPropertyChild>): (r: Option<nat>)
    ensures r.None? <==> forall i :: 0 <= i < |children| ==> !children[i].KtCallExpression?
    ensures r.Some? ==>
      r.value < |children| && children[r.value].KtCallExpression? &&
      forall j :: 0 <= j < r.value ==> !children[j].KtCallExpression?
  {
    if children == [] then None
    else if children[0].KtCallExpression? then Some(0)
    else
      match FirstCallExpressionIndex(children[1..])
      case None => None
      case Some(k) => Some(k + 1)
  }

  /**
   * The type name inferred from a property's initializer: the return-type
   * annotation of the named function that the callee of the property's first
   * call-expression child resolves to. Every step that fails gives `None`.
   */
  function InferredCanonicalName(property: KtDeclaration): (r: Option<string>)
    requires property.KtProperty?
    ensures FirstCallExpressionIndex(property.children).None? ==> r.None?
    ensures r.Some? <==>
      && FirstCallExpressionIndex(property.children).Some?
      && property.children[FirstCallExpressionIndex(property.children).value].callee.Some?
      && var callee := property.children[FirstCallExpressionIndex(property.children).value].callee.value;
         && FirstResolved(callee.references).Some?
         && FirstResolved(callee.references).value.KtNamedFunction?
         && FirstResolved(callee.references).value.typeReference.Some?
    ensures r.Some? ==>
      var callee := property.children[FirstCallExpressionIndex(property.children).value].callee.value;
      r == FirstResolved(callee.references).value.typeReference
  {
    match FirstCallExpressionIndex(property.children)
    case None => None
    case Some(k) =>
      match property.children[k].callee
      case None => None
      case Some(callee) =>
        match FirstResolved(callee.references)
        case Some(KtNamedFunction(typeReference)) => typeReference
        case _ => None
  }

  /** The one candidate name of a property: its type annotation, else the inferred name. */
  function PropertyCanonicalName(property: KtDeclaration): Option<string>
    requires property.KtProperty?
  {
    if property.typeReference.Some? then property.typeReference else InferredCanonicalName(property)
  }

  /** The property a dot-qualified call's receiver resolves to, if the element has that shape. */
  function ReceiverProperty(e: Element): Option<KtDeclaration> {
    if !e.kind.KtDotQualifiedExpression? then None
    else if e.kind.selector.None? || !e.kind.selector.value.isCallExpression then None
    else
      match FirstResolved(e.kind.receiver.references)
      case Some(declaration) => if declaration.KtProperty? then Some(declaration) else None
      case None => None
  }

  /**
   * The Kotlin logger-call test: a dot-qualified expression whose selector is
   * a call, whose receiver resolves to a property, and whose property's
   * candidate name is registered. An annotated property is decided by its
   * annotation alone, an unannotated one by the return type of the function
   * its initializer calls.
   */
  predicate LoggerMethodCall(e: Element, canonicalNames: set<string>)
    ensures LoggerMethodCall(e, canonicalNames) ==>
      e.kind.KtDotQualifiedExpression? && e.kind.selector.Some? && e.kind.selector.value.isCallExpression
    ensures ReceiverProperty(e).None? ==> !LoggerMethodCall(e, canonicalNames)
    ensures ReceiverProperty(e).Some? && ReceiverProperty(e).value.typeReference.Some? ==>
      (LoggerMethodCall(e, canonicalNames) <==> ReceiverProperty(e).value.typeReference.value in canonicalNames)
    ensures ReceiverProperty(e).Some? && ReceiverProperty(e).value.typeReference.None? ==>
      (LoggerMethodCall(e, canonicalNames) <==>
        var inferred := InferredCanonicalName(ReceiverProperty(e).value);
        inferred.Some? && inferred.value in canonicalNames)
  {
    match ReceiverProperty(e)
    case None => false
    case Some(property) =>
      var canonicalName := PropertyCanonicalName(property);
      canonicalName.Some? && canonicalName.value in canonicalNames
  }

  /**
   * `getCanonicalNameFromPropertyCallExpression`: scans the property's
   * children for the first call expression, then follows callee, resolution
   * and return-type annotation; any missing step gives `None`.
   */
  method GetCanonicalNameFromPropertyCallExpression(property: KtDeclaration) returns (canonicalName: Option<string>)
    requires property.KtProperty?
    ensures canonicalName == InferredCanonicalName(property)
    ensures FirstCallExpressionIndex(property.children).None? ==> canonicalName.None?
  {
    var callExpression: Option<KtPropertyChild> := None;
    var children := property.children;
    var i := 0;
    while i < |children|
      invariant 0 <= i <= |children|
      invariant callExpression.None?
      invariant forall j :: 0 <= j < i ==> !children[j].KtCallExpression?
    {
      if children[i].KtCallExpression? {
        callExpression := Some(children[i]);
        break;
      }
      i := i + 1;
    }
    if callExpression.None? {
      return None;
    }
    var calleeExpression := callExpression.value.callee;
    if calleeExpression.None? {
      return None;
    }
    var resolvedReference := ResolveReference(calleeExpression.value.references);
    if resolvedReference.None? || !resolvedReference.value.KtNamedFunction? {
      return None;
    }
    return resolvedReference.value.typeReference;
  }

  /**
   * `isALoggerMethodCall`: the guard chain over the element's shape, the
   * receiver's resolution and the property's type; a `null` candidate name
   * contributes no match.
   */
  method IsALoggerMethodCall(element: Element, canonicalNames: set<string>) returns (r: bool)
    ensures r == LoggerMethodCall(element, canonicalNames)
  {
    if !element.kind.KtDotQualifiedExpression? {
      return false;
    }
    var selectorExpression := element.kind.selector;
    if selectorExpression.None? || !selectorExpression.value.isCallExpression {
      return false;
    }
    var resolvedReference := ResolveReference(element.kind.receiver.references);
    if resolvedReference.None? || !resolvedReference.value.KtProperty? {
      return false;
    }
    var property := resolvedReference.value;
    var canonicalName: Option<string>;
    if property.typeReference.Some? {
      canonicalName := property.typeReference;
    } else {
      canonicalName := GetCanonicalNameFromPropertyCallExpression(property);
    }
    var canonicalTexts := if canonicalName.Some? then [canonicalName.value] else [];
    r := PsiHelper.IsAnyCanonicalTextContainedInTheCanonicalNames(canonicalTexts, canonicalNames);
  }

  /**
   * Whether a call matches does not depend on its selector's children: there
   * is no argument-count exclusion, only the call-expression shape counts.
   */
  lemma MatchIgnoresArguments(e: Element, children: seq<KtSelectorChild>, canonicalNames: set<string>)
    requires e.kind.KtDotQualifiedExpression? && e.kind.selector.Some?
    ensures LoggerMethodCall(e, canonicalNames) ==
      LoggerMethodCall(e.(kind := e.kind.(selector := Some(e.kind.selector.value.(children := children)))), canonicalNames)
  {
  }

  /** `getTextRange`: the element's own range, never widened to a following `;` as the Java span is. */
  function GetTextRange(element: Element): (r: TextRange)
    ensures r == element.range
    ensures PsiHelper.FoldRange(element).Contains(r)
    ensures PsiHelper.SemicolonIndex(element.nextSiblings).None? ==> r == PsiHelper.FoldRange(element)
  {
    element.range
  }

  const ElidedArguments: string := "(\U{2026})"
  const ElidedLambda: string := "{\U{2026}}"

  /** How one selector child is written in the placeholder. */
  function RenderChild(child: KtSelectorChild): string {
    match child
    case KtValueArgumentList(_) => ElidedArguments
    case KtLambdaArgument(_) => ElidedLambda
    case KtOtherSelectorChild(text) => text
  }

  function RenderChildren(children: seq<KtSelectorChild>): string {
    if children == [] then ""
    else RenderChildren(children[..|children| - 1]) + RenderChild(children[|children| - 1])
  }

  /**
   * The placeholder: the receiver text, then, when there is a selector, `.`
   * and its children with the argument list as `(…)` and a lambda as `{…}`.
   */
  function Placeholder(e: Element): (r: string)
    requires e.kind.KtDotQualifiedExpression?
    ensures |r| >= |e.kind.receiver.text| && r[..|e.kind.receiver.text|] == e.kind.receiver.text
    ensures e.kind.selector.None? ==> r == e.kind.receiver.text
    ensures e.kind.selector.Some? ==> |r| > |e.kind.receiver.text| && r[|e.kind.receiver.text|] == '.'
  {
    e.kind.receiver.text +
    match e.kind.selector
    case None => ""
    case Some(selector) => "." + RenderChildren(selector.children)
  }

  /** Two selector children of the same kind, which agree in text unless they are elided. */
  predicate SameShape(a: KtSelectorChild, b: KtSelectorChild) {
    match a
    case KtValueArgumentList(_) => b.KtValueArgumentList?
    case KtLambdaArgument(_) => b.KtLambdaArgument?
    case KtOtherSelectorChild(text) => b == a
  }

  /** The placeholder hides what the arguments and the lambda contain. */
  lemma {:induction false} RenderingElidesArguments(a: seq<KtSelectorChild>, b: seq<KtSelectorChild>)
    requires |a| == |b| && forall i :: 0 <= i < |a| ==> SameShape(a[i], b[i])
    ensures RenderChildren(a) == RenderChildren(b)
  {
    if a != [] {
      RenderingElidesArguments(a[..|a| - 1], b[..|b| - 1]);
      assert SameShape(a[|a| - 1], b[|b| - 1]);
    }
  }

  /** Rendering one more child appends its rendering to what was written so far. */
  lemma RenderNextChild(prefix: string, children: seq<KtSelectorChild>, i: nat)
    requires i < |children|
    ensures prefix + RenderChildren(children[..i + 1]) == prefix + RenderChildren(children[..i]) + RenderChild(children[i])
  {
    assert children[..i + 1][..i] == children[..i];
  }

  /** With a selector, the placeholder is the receiver text, `.` and the rendered children. */
  lemma PlaceholderWithSelector(e: Element)
    requires e.kind.KtDotQualifiedExpression? && e.kind.selector.Some?
    ensures Placeholder(e) == e.kind.receiver.text + "." + RenderChildren(e.kind.selector.value.children)
  {
  }

  /** `getPlaceholderText`; the element is cast to a dot-qualified expression. */
  method GetPlaceholderText(element: Element) returns (placeholderText: string)
    requires element.kind.KtDotQualifiedExpression?
    ensures placeholderText == Placeholder(element)
  {
    placeholderText := element.kind.receiver.text;
    var selectorExpression := element.kind.selector;
    if selectorExpression.Some? {
      placeholderText := placeholderText + ".";
      ghost var prefix := placeholderText;
      var children := selectorExpression.value.children;
      for i := 0 to |children|
        invariant placeholderText == prefix + RenderChildren(children[..i])
      {
        var child := children[i];
        RenderNextChild(prefix, children, i);
        if child.KtValueArgumentList? {
          placeholderText := placeholderText + ElidedArguments;
        } else if child.KtLambdaArgument? {
          placeholderText := placeholderText + ElidedLambda;
        } else {
          placeholderText := placeholderText + child.text;
        }
      }
      assert children[..|children|] == children;
      PlaceholderWithSelector(element);
    }
  }
}
