/**
 * `JavaPsiHelper` (newer generation): decides whether a Java element is a
 * logger method call against the user's registry, and computes its fold span
 * and placeholder.
 */
module JavaPsiHelper {
  import opened Wrappers
  import opened Psi
  import PsiHelper
  import LoggerClasses

  /** `addCanonicalTextFromType`: appends the canonical text of the qualifier's static type, if known. */
  function AddCanonicalTextFromType(q: QualifierExpression, canonicalTexts: seq<string>): seq<string> {
    match q.typeCanonicalText
    case None => canonicalTexts
    case Some(text) => canonicalTexts + [text]
  }

  /**
   * `addCanonicalTextFromReferenceExpression`: for a reference qualifier,
   * appends its canonical text when it is qualified, else defers to the import.
   */
  function AddCanonicalTextFromReferenceExpression(q: QualifierExpression, canonicalTexts: seq<string>): seq<string> {
    match q.reference
    case None => canonicalTexts
    case Some(referenceExpression) =>
      if referenceExpression.isQualified then canonicalTexts + [referenceExpression.canonicalText]
      else AddCanonicalTextFromImport(referenceExpression, canonicalTexts)
  }

  /** `addCanonicalTextFromImport`: appends the canonical text of the single-name import, if any. */
  function AddCanonicalTextFromImport(referenceExpression: ReferenceExpression, canonicalTexts: seq<string>): seq<string> {
    match referenceExpression.singleImportCanonicalText
    case None => canonicalTexts
    case Some(text) => canonicalTexts + [text]
  }

  /**
   * The candidate names the matcher collects for a qualifier: the static
   * type's text first, then the reference text; a missing piece adds nothing.
   */
  function CanonicalTexts(q: QualifierExpression): (r: seq<string>)
    ensures r == (if q.typeCanonicalText.Some? then [q.typeCanonicalText.value] else []) +
                 (if PsiHelper.ReferenceCandidate(q).Some? then [PsiHelper.ReferenceCandidate(q).value] else [])
    ensures forall c :: c in r <==> Some(c) == q.typeCanonicalText || Some(c) == PsiHelper.ReferenceCandidate(q)
  {
    AddCanonicalTextFromReferenceExpression(q, AddCanonicalTextFromType(q, []))
  }

  /**
   * `isALoggerMethodCall`: a method call with at least one argument and a
   * qualifier, one of whose candidate names is registered.
   */
  function IsALoggerMethodCall(element: Element, canonicalNames: set<string>): (r: bool)
    ensures r <==>
      && element.kind.PsiMethodCallExpression?
      && element.kind.argumentCount > 0
      && element.kind.methodExpression.qualifier.Some?
      && PsiHelper.QualifierNamedIn(element.kind.methodExpression.qualifier.value, canonicalNames)
  {
    if !element.kind.PsiMethodCallExpression? then false
    else if element.kind.argumentCount == 0 then false
    else
      match element.kind.methodExpression.qualifier
      case None => false
      case Some(q) => PsiHelper.IsAnyCanonicalTextContainedInTheCanonicalNames(CanonicalTexts(q), canonicalNames)
  }

  /**
   * On calls that have arguments, the newer matcher given the four
   * `LoggerClasses` names decides exactly as the older one; the older one
   * alone also accepts calls without arguments.
   */
  lemma AgreesWithOlderMatcher(element: Element)
    requires element.kind.PsiMethodCallExpression?
    ensures IsALoggerMethodCall(element, LoggerClasses.LoggerClassNames) <==>
      element.kind.argumentCount > 0 && PsiHelper.CallQualifier(element).Some? &&
      PsiHelper.QualifierNamedIn(PsiHelper.CallQualifier(element).value, LoggerClasses.LoggerClassNames)
  {
  }

  /** The ellipsis marker that stands for the elided arguments. */
  const ElidedArguments: string := "(\U{2026})"

  /**
   * The placeholder: the method expression's text, then `(…)`, then `;`
   * exactly when a `;` token follows the call.
   */
  function Placeholder(e: Element): (r: string)
    requires e.kind.PsiMethodCallExpression?
    ensures |r| >= |e.kind.methodExpression.text| + |ElidedArguments| > 0
    ensures |r| == |e.kind.methodExpression.text| + |ElidedArguments| +
      (if PsiHelper.SemicolonIndex(e.nextSiblings).Some? then 1 else 0)
    ensures r[..|e.kind.methodExpression.text|] == e.kind.methodExpression.text
    ensures r[|e.kind.methodExpression.text|..][..|ElidedArguments|] == ElidedArguments
    ensures (r[|r| - 1] == ';') <==> PsiHelper.SemicolonIndex(e.nextSiblings).Some?
  {
    e.kind.methodExpression.text + ElidedArguments +
    (if PsiHelper.SemicolonIndex(e.nextSiblings).Some? then ";" else "")
  }

  /** `findSemicolonNextTo`: walks the next siblings until a `;` Java token. */
  method FindSemicolonNextTo(element: Element) returns (semicolon: Option<Sibling>)
    ensures semicolon.None? <==> PsiHelper.SemicolonIndex(element.nextSiblings).None?
    ensures semicolon.Some? ==> semicolon.value == element.nextSiblings[PsiHelper.SemicolonIndex(element.nextSiblings).value]
  {
    var siblings := element.nextSiblings;
    var i := 0;
    while i < |siblings|
      invariant 0 <= i <= |siblings|
      invariant forall j :: 0 <= j < i ==> !PsiHelper.IsSemicolon(siblings[j])
    {
      if siblings[i].isJavaToken && siblings[i].text == ";" {
        return Some(siblings[i]);
      }
      i := i + 1;
    }
    return None;
  }

  /** `getTextRange`: the element's range, widened to the following `;` token if there is one. */
  method GetTextRange(element: Element) returns (textRange: TextRange)
    ensures textRange == PsiHelper.FoldRange(element)
  {
    textRange := element.range;
    var semicolon := FindSemicolonNextTo(element);
    if semicolon.Some? {
      textRange := textRange.Union(semicolon.value.range);
    }
  }

  /** `getPlaceholderText`; the element is cast to a method call, so only calls may be passed. */
  method GetPlaceholderText(element: Element) returns (placeholderText: string)
    requires element.kind.PsiMethodCallExpression?
    ensures placeholderText == Placeholder(element)
  {
    var semicolon := FindSemicolonNextTo(element);
    placeholderText := element.kind.methodExpression.text + ElidedArguments + (if semicolon.Some? then ";" else "");
  }
}
