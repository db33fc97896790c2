/**
 * `PsiHelper` (older generation): the Java matcher checked against the fixed
 * `LoggerClasses`, the fold span widened to the following `;`, and the
 * candidate-name rule and the `;` search that the newer `JavaPsiHelper`
 * repeats. It also holds `isAnyCanonicalTextContainedInTheCanonicalNames`,
 * which the newer helpers import from it.
 */
module PsiHelper {
  import opened Wrappers
  import opened Psi
  import LoggerClasses

  /**
   * `isAnyCanonicalTextContainedInTheCanonicalNames`: some candidate text is
   * one of the registered names.
   */
  function IsAnyCanonicalTextContainedInTheCanonicalNames(canonicalTexts: seq<string>, canonicalNames: set<string>): (r: bool)
    ensures r <==> exists i :: 0 <= i < |canonicalTexts| && canonicalTexts[i] in canonicalNames
  {
    if canonicalTexts == [] then false
    else
      canonicalTexts[|canonicalTexts| - 1] in canonicalNames ||
      IsAnyCanonicalTextContainedInTheCanonicalNames(canonicalTexts[..|canonicalTexts| - 1], canonicalNames)
  }

  /**
   * The reference-text strategy: the canonical text of the qualifier when it
   * is a qualified reference, else the canonical text of the single-name
   * import of its bare name; nothing when it is not a reference.
   */
  function ReferenceCandidate(q: QualifierExpression): Option<string> {
    match q.reference
    case None => None
    case Some(reference) =>
      if reference.isQualified then Some(reference.canonicalText) else reference.singleImportCanonicalText
  }

  /** A qualifier names one of `canonicalNames`, by its static type or by its reference text. */
  predicate QualifierNamedIn(q: QualifierExpression, canonicalNames: set<string>) {
    || (q.typeCanonicalText.Some? && q.typeCanonicalText.value in canonicalNames)
    || (ReferenceCandidate(q).Some? && ReferenceCandidate(q).value in canonicalNames)
  }

  /** The qualifier of a method call, if the element is a method call that has one. */
  function CallQualifier(e: Element): Option<QualifierExpression> {
    if e.kind.PsiMethodCallExpression? then e.kind.methodExpression.qualifier else None
  }

  /** The older matcher's verdict: a qualified method call whose qualifier names a `LoggerClasses` type. */
  predicate IsLoggerCall(e: Element) {
    CallQualifier(e).Some? && QualifierNamedIn(CallQualifier(e).value, LoggerClasses.LoggerClassNames)
  }

  /**
   * `isALoggerMethodCall` of the older generation: a qualified method call
   * whose qualifier's type text or reference text is a `LoggerClasses` name.
   * It has no argument-count check.
   */
  method IsALoggerMethodCall(element: Element) returns (r: bool)
    ensures r <==> CallQualifier(element).Some? && QualifierNamedIn(CallQualifier(element).value, LoggerClasses.LoggerClassNames)
  {
    if element.kind.PsiMethodCallExpression? {
      var qualifierExpression := element.kind.methodExpression.qualifier;
      if qualifierExpression.Some? {
        var q := qualifierExpression.value;
        var canonicalTexts: seq<string> := [];
        if q.typeCanonicalText.Some? {
          canonicalTexts := canonicalTexts + [q.typeCanonicalText.value];
        }
        if q.reference.Some? {
          var referenceExpression := q.reference.value;
          if referenceExpression.isQualified {
            canonicalTexts := canonicalTexts + [referenceExpression.canonicalText];
          } else if referenceExpression.singleImportCanonicalText.Some? {
            canonicalTexts := canonicalTexts + [referenceExpression.singleImportCanonicalText.value];
          }
        }
        assert forall c :: c in canonicalTexts <==> Some(c) == q.typeCanonicalText || Some(c) == ReferenceCandidate(q);
        for i := 0 to |canonicalTexts|
          invariant forall j :: 0 <= j < i ==> !LoggerClasses.Contains(Some(canonicalTexts[j]))
        {
          if LoggerClasses.Contains(Some(canonicalTexts[i])) {
            return true;
          }
        }
        return false;
      }
    }
    return false;
  }

  predicate IsSemicolon(s: Sibling) {
    s.isJavaToken && s.text == ";"
  }

  /** The position of the first following sibling that is a `;` Java token, skipping all others. */
  function SemicolonIndex(siblings: seq<Sibling>): (r: Option<nat>)
    ensures r.None? <==> forall i :: 0 <= i < |siblings| ==> !IsSemicolon(siblings[i])
    ensures r.Some? ==>
      r.value < |siblings| && IsSemicolon(siblings[r.value]) &&
      forall j :: 0 <= j < r.value ==> !IsSemicolon(siblings[j])
  {
    if siblings == [] then None
    else if IsSemicolon(siblings[0]) then Some(0)
    else
      match SemicolonIndex(siblings[1..])
      case None => None
      case Some(k) => Some(k + 1)
  }

  /**
   * The span to fold: the element's own range, joined with the range of the
   * first following `;` token when there is one.
   */
  function FoldRange(e: Element): (r: TextRange)
    ensures r.Contains(e.range)
    ensures SemicolonIndex(e.nextSiblings).None? ==> r == e.range
    ensures SemicolonIndex(e.nextSiblings).Some? ==>
      var semicolon := e.nextSiblings[SemicolonIndex(e.nextSiblings).value].range;
      r.Contains(semicolon) &&
      (e.range.startOffset <= semicolon.startOffset && e.range.endOffset <= semicolon.endOffset ==>
         r == TextRange(e.range.startOffset, semicolon.endOffset))
  {
    match SemicolonIndex(e.nextSiblings)
    case None => e.range
    case Some(k) => e.range.Union(e.nextSiblings[k].range)
  }

  /** `findSemicolonNextTo`: walks the next siblings until a `;` Java token. */
  method FindSemicolonNextTo(element: Element) returns (semicolon: Option<Sibling>)
    ensures semicolon.None? <==> SemicolonIndex(element.nextSiblings).None?
    ensures semicolon.Some? ==> semicolon.value == element.nextSiblings[SemicolonIndex(element.nextSiblings).value]
  {
    var siblings := element.nextSiblings;
    var i := 0;
    while i < |siblings|
      invariant 0 <= i <= |siblings|
      invariant forall j :: 0 <= j < i ==> !IsSemicolon(siblings[j])
    {
      if siblings[i].isJavaToken && siblings[i].text == ";" {
        return Some(siblings[i]);
      }
      i := i + 1;
    }
    return None;
  }

  /** `getTextRange`: the element's range, widened to the following `;` token if there is one. */
  method GetTextRange(element: Element) returns (textRange: TextRange)
    ensures textRange == FoldRange(element)
  {
    textRange := element.range;
    var semicolon := FindSemicolonNextTo(element);
    if semicolon.Some? {
      textRange := textRange.Union(semicolon.value.range);
    }
  }
}
