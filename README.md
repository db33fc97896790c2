# Logger folding: recognising logger calls and folding them

This project models the core of an IntelliJ plugin that folds logger calls in
Java and Kotlin source. The plugin finds every call whose receiver has a
registered logger type, such as `log.info("…")` on an `org.slf4j.Logger`.
It then collapses the call into a one-line placeholder such as `log.info(…);`
in the editor. It can also remove those folds again.

The repository holds two generations of the plugin:

- the newer one under `src/main/java/…`;
- the older one under `src/…`.

Where both generations have a file with the same name, the older one's
module carries the prefix `Legacy`.

What is modelled:

- **Recognition.**
  - The newer Java matcher, `JavaPsiHelper.IsALoggerMethodCall`: a method
    call with at least one argument whose qualifier names a registered type,
    either by its static type or by its reference text (qualified, or through
    the single-name import).
  - The Kotlin matcher, `KotlinPsiHelper.LoggerMethodCall`: a dot-qualified
    call whose receiver resolves to a property. The property's annotated type
    counts, or else the return type of the function that initialises it.
  - The older matcher against the fixed `LoggerClasses`, `PsiHelper`.
- **Fold spans and placeholders.**
  - A Java call's span is widened to the first following `;` token.
  - A Kotlin call's span is its own range.
  - The placeholders elide the arguments.
- **Folding builders.** These collect one descriptor per matched call, in
  pre-order: the node is checked first, then its children.
- **Fold and unfold actions.** These update an editor folding model once per
  logger call of the file. As a modelling choice, the walk visits the nodes
  in post-order: the children first, then the node itself. The host's
  walking visitor uses a different order; "## Left out" says why the
  difference is small.
  - `FoldingModel.FoldingModel` stands for the host editor's folding model. It
    is a map from text range to region.
  - Adding a region fails on an invalid range or when a region already
    occupies that range.
  - A new region starts expanded.
- **Settings and the settings page.** These are the canonical-name registry
  in both generations, the application-wide "collapse by default" flag, and
  the table of names on the settings page with its add and remove buttons.

A few modelling choices:

- **The registry as a set.** The matchers receive the registry as a set of
  names. The newer state keeps a `LinkedHashSet`, written here as a list
  without duplicates. The older state keeps a list together with a `HashSet`
  of the same names.
- **Helpers the older tree does not have.** `PsiHelper.isAnyCanonicalTextContainedInTheCanonicalNames`
  is called by both newer helpers but is not in `PsiHelper.java`. It is
  modelled as "some candidate text is a registered name". The older tree has
  no `JavaPsiHelper`, so the older unfold action uses the newer one. The newer
  helpers declare a `LoggerFoldingProjectSettings.State` while the older
  callers pass a `LoggerFoldingSettings.State`. The model passes the set of
  names in both cases.
- **The older settings classes.** `LoggerFoldingProjectSettings` and
  `LoggerFoldingSettings` of the older tree have the same body. They are
  modelled once, by `LegacySettings`.

## Model

Paths are relative to the repository root.

| member | source | states |
|---|---|---|
| LoggerClasses.Contains | src/com/github/healarconr/loggerfolding/LoggerClasses.java:15-35 | a class name is contained exactly when it is one of the four fixed logger types; a missing name is never contained |
| CanonicalNames.AddAll | src/main/java/com/github/healarconr/loggerfolding/LoggerFoldingProjectSettings.java:59-78 | adding names to a `LinkedHashSet` gives a list without duplicates that holds the old and the new names and keeps the old ones first, in their order |
| CanonicalNames.AddAllDistinct | src/main/java/com/github/healarconr/loggerfolding/LoggerFoldingProjectSettings.java:76-78 | copying names that are already distinct gives the same names in the same order |
| CanonicalNames.DefaultCanonicalNamesAddedInOrder | src/main/java/com/github/healarconr/loggerfolding/LoggerFoldingProjectSettings.java:59-70 | the eight default names are pairwise distinct, so the `LinkedHashSet` built from them keeps all eight in the listed order |
| CanonicalNames.InsertAt | src/com/github/healarconr/loggerfolding/LoggerFoldingConfigurable.java:157-159 | `add(index, x)`: one longer, `x` at `index`, earlier rows unchanged, later rows shifted down by one |
| CanonicalNames.RemoveAt | src/com/github/healarconr/loggerfolding/LoggerFoldingConfigurable.java:161-163 | `remove(index)`: one shorter, earlier rows unchanged, later rows shifted up by one |
| CanonicalNames.RemoveAtInsertAt | src/com/github/healarconr/loggerfolding/LoggerFoldingConfigurable.java:157-163 | removing the row just inserted gives back the original rows |
| CanonicalNames.RemoveAtElements | src/main/java/com/github/healarconr/loggerfolding/LoggerFoldingProjectSettings.java:80-95 | removing one name from a list without duplicates leaves a list without duplicates holding exactly the other names |
| Psi.Union | src/main/java/com/github/healarconr/loggerfolding/JavaPsiHelper.java:115-121 | the union of two ranges contains both, and is contained in every range that contains both |
| Psi.ChildSubtreeInPreOrder | src/main/java/com/github/healarconr/loggerfolding/JavaFoldingBuilder.java:38-40 | every node under a child is visited by the recursive walk from its parent |
| Psi.SubtreeInPreOrderOfAll | src/main/java/com/github/healarconr/loggerfolding/JavaFoldingBuilder.java:38-40 | every node under any child is visited when the children are walked in order |
| PsiHelper.IsAnyCanonicalTextContainedInTheCanonicalNames | src/main/java/com/github/healarconr/loggerfolding/JavaPsiHelper.java:48 | true exactly when some candidate text is a registered name |
| PsiHelper.IsALoggerMethodCall | src/com/github/healarconr/loggerfolding/PsiHelper.java:30-74 | true exactly for a qualified method call whose qualifier's type text or reference text is a `LoggerClasses` name, with or without arguments |
| PsiHelper.SemicolonIndex | src/com/github/healarconr/loggerfolding/PsiHelper.java:103-114 | none exactly when no following sibling is a `;` token; otherwise the index of the first one |
| PsiHelper.FoldRange | src/com/github/healarconr/loggerfolding/PsiHelper.java:84-93 | the span contains the element; it is the element's range when no `;` follows, and otherwise the union with the first following `;` |
| PsiHelper.FindSemicolonNextTo | src/com/github/healarconr/loggerfolding/PsiHelper.java:103-114 | the loop finds nothing exactly when no following sibling is `;`, and otherwise returns the first `;` sibling |
| PsiHelper.GetTextRange | src/com/github/healarconr/loggerfolding/PsiHelper.java:84-93 | returns the element's span widened to the following `;` |
| JavaPsiHelper.CanonicalTexts | src/main/java/com/github/healarconr/loggerfolding/JavaPsiHelper.java:45-103 | the candidate names are the type's text, if any, then the reference text, if any; a text is a candidate exactly when one of the two strategies yields it |
| JavaPsiHelper.IsALoggerMethodCall | src/main/java/com/github/healarconr/loggerfolding/JavaPsiHelper.java:33-52 | true exactly for a method call with at least one argument and a qualifier that names a registered type by its type or reference text |
| JavaPsiHelper.AgreesWithOlderMatcher | src/main/java/com/github/healarconr/loggerfolding/JavaPsiHelper.java:35-41 | given the four `LoggerClasses` names, the newer matcher accepts a call exactly when the older one does and the call has arguments |
| JavaPsiHelper.Placeholder | src/main/java/com/github/healarconr/loggerfolding/JavaPsiHelper.java:150-156 | the placeholder is the method expression's text, then `(…)`, then nothing but a `;`, which is there exactly when a `;` token follows the call |
| JavaPsiHelper.FindSemicolonNextTo | src/main/java/com/github/healarconr/loggerfolding/JavaPsiHelper.java:131-141 | the loop finds nothing exactly when no following sibling is `;`, and otherwise returns the first `;` sibling |
| JavaPsiHelper.GetTextRange | src/main/java/com/github/healarconr/loggerfolding/JavaPsiHelper.java:113-122 | returns the element's span widened to the following `;` |
| JavaPsiHelper.GetPlaceholderText | src/main/java/com/github/healarconr/loggerfolding/JavaPsiHelper.java:150-156 | returns the placeholder, whose `;` follows the `;` search |
| KotlinPsiHelper.FirstResolved | src/com/github/healarconr/loggerfolding/KotlinPsiHelper.java:77-86 | none exactly when no reference resolves; otherwise the first resolved declaration, with every earlier reference unresolved |
| KotlinPsiHelper.ResolveReference | src/com/github/healarconr/loggerfolding/KotlinPsiHelper.java:77-86 | the loop returns the first resolved reference |
| KotlinPsiHelper.FirstCallExpressionIndex | src/com/github/healarconr/loggerfolding/KotlinPsiHelper.java:96-105 | none exactly when no child of the property is a call expression; otherwise the index of the first one |
| KotlinPsiHelper.InferredCanonicalName | src/com/github/healarconr/loggerfolding/KotlinPsiHelper.java:94-134 | a name is inferred exactly when the property has a call-expression child whose callee's first resolved reference is a named function with a declared return type, and it is that type; no call expression gives none |
| KotlinPsiHelper.LoggerMethodCall | src/com/github/healarconr/loggerfolding/KotlinPsiHelper.java:31-69 | a match is a dot-qualified expression whose selector is a call; nothing matches unless the receiver resolves to a property; an annotated property matches exactly when its annotation is a registered name; an unannotated one matches exactly when the return type of the function its initializer calls is a registered name |
| KotlinPsiHelper.GetCanonicalNameFromPropertyCallExpression | src/com/github/healarconr/loggerfolding/KotlinPsiHelper.java:94-134 | the loop and the steps after it give the return type of the function that initialises the property, and nothing when the property has no call expression |
| KotlinPsiHelper.IsALoggerMethodCall | src/com/github/healarconr/loggerfolding/KotlinPsiHelper.java:31-69 | returns the Kotlin logger-call verdict |
| KotlinPsiHelper.MatchIgnoresArguments | src/com/github/healarconr/loggerfolding/KotlinPsiHelper.java:39-43 | the verdict does not depend on the call's arguments, so, unlike the newer Java matcher, calls without arguments match too |
| KotlinPsiHelper.Placeholder | src/com/github/healarconr/loggerfolding/KotlinPsiHelper.java:157-185 | the placeholder starts with the receiver's text; it is only that text when there is no selector, and otherwise a `.` follows it |
| KotlinPsiHelper.RenderingElidesArguments | src/com/github/healarconr/loggerfolding/KotlinPsiHelper.java:173-181 | selector children of the same shape render alike, whatever their argument lists and lambdas hold |
| KotlinPsiHelper.GetPlaceholderText | src/com/github/healarconr/loggerfolding/KotlinPsiHelper.java:157-185 | the loop over the selector's children builds the placeholder |
| KotlinPsiHelper.GetTextRange | src/com/github/healarconr/loggerfolding/KotlinPsiHelper.java:145-148 | the Kotlin span is the element's own range, inside the Java-style span widened to a following `;`, and equal to it when no `;` follows |
| JavaFoldingBuilder.DescriptorsExactlyForMatches | src/main/java/com/github/healarconr/loggerfolding/JavaFoldingBuilder.java:31-41 | at most one descriptor per node; each descriptor is for a matched node and carries its span widened to `;`; every matched node has a descriptor |
| JavaFoldingBuilder.DescriptorsAppend | src/main/java/com/github/healarconr/loggerfolding/JavaFoldingBuilder.java:38-40 | walking two node lists in turn collects the first list's descriptors followed by the second's |
| JavaFoldingBuilder.CollectFoldRegions | src/main/java/com/github/healarconr/loggerfolding/JavaFoldingBuilder.java:31-41 | the recursive builder appends one descriptor per matched node of the subtree, in pre-order |
| JavaFoldingBuilder.BuildFoldRegions | src/main/java/com/github/healarconr/loggerfolding/JavaFoldingBuilder.java:45-60 | no descriptors for a non-Java file, a quick pass or when collapse-by-default is off; otherwise the descriptors of the whole file |
| JavaFoldingBuilder.GetPlaceholderText | src/main/java/com/github/healarconr/loggerfolding/JavaFoldingBuilder.java:64-68 | the node's placeholder is the Java helper's |
| JavaFoldingBuilder.IsCollapsedByDefault | src/main/java/com/github/healarconr/loggerfolding/JavaFoldingBuilder.java:71-74 | every descriptor is collapsed by default |
| KotlinFoldingBuilder.DescriptorsExactlyForMatches | src/com/github/healarconr/loggerfolding/KotlinFoldingBuilder.java:52-62 | at most one descriptor per node; each descriptor is for a matched node and carries its range; every matched node has a descriptor |
| KotlinFoldingBuilder.DescriptorsAppend | src/com/github/healarconr/loggerfolding/KotlinFoldingBuilder.java:59-61 | walking two node lists in turn collects the first list's descriptors followed by the second's |
| KotlinFoldingBuilder.CollectFoldRegions | src/com/github/healarconr/loggerfolding/KotlinFoldingBuilder.java:52-62 | the recursive builder appends one descriptor per matched node of the subtree, in pre-order |
| KotlinFoldingBuilder.BuildFoldRegions | src/com/github/healarconr/loggerfolding/KotlinFoldingBuilder.java:26-43 | no descriptors for a file that is not a `KtFile`, a quick pass or when collapse-by-default is off; otherwise the descriptors of the whole file |
| KotlinFoldingBuilder.GetPlaceholderText | src/com/github/healarconr/loggerfolding/KotlinFoldingBuilder.java:66-70 | the node's placeholder is the Kotlin helper's |
| KotlinFoldingBuilder.IsCollapsedByDefault | src/com/github/healarconr/loggerfolding/KotlinFoldingBuilder.java:73-76 | every descriptor is collapsed by default |
| ActionHelper.IsAvailable | src/com/github/healarconr/loggerfolding/ActionHelper.java:30-37 | unavailable without a project, an editor or a file, or for any file that is not a Java file or a `KtFile`; available when all three are present and the file is either of those |
| FoldingModel.FoldingModel.constructor | src/main/java/com/github/healarconr/loggerfolding/FoldLoggerMethodCallsAction.java:91-103 | an editor's folding model starts with no regions |
| FoldingModel.FoldingModel.GetFoldRegion | src/main/java/com/github/healarconr/loggerfolding/FoldLoggerMethodCallsAction.java:93-94 | finds a region exactly when one occupies the given range, and returns that region |
| FoldingModel.FoldingModel.AddFoldRegion | src/main/java/com/github/healarconr/loggerfolding/FoldLoggerMethodCallsAction.java:96-98 | adds an expanded region and returns it when the range is valid and free; otherwise returns nothing and changes nothing |
| FoldingModel.FoldingModel.SetExpanded | src/main/java/com/github/healarconr/loggerfolding/FoldLoggerMethodCallsAction.java:100-102 | only the given region's expanded flag changes |
| FoldingModel.FoldingModel.RemoveFoldRegion | src/main/java/com/github/healarconr/loggerfolding/UnfoldLoggerMethodCallsAction.java:102-105 | exactly the region at the given range goes |
| FoldAction.Ranges | src/main/java/com/github/healarconr/loggerfolding/FoldLoggerMethodCallsAction.java:58-60 | one range per fold request, in order |
| FoldAction.RequestsExactlyForMatches | src/main/java/com/github/healarconr/loggerfolding/FoldLoggerMethodCallsAction.java:50-78 | at most one fold per visited node; a fold is asked for exactly for each matched node, with that helper's span and placeholder |
| FoldAction.FoldAllKeys | src/main/java/com/github/healarconr/loggerfolding/FoldLoggerMethodCallsAction.java:89-104 | after folding, a range holds a region exactly when it held one before, or it was asked for and is a valid range |
| FoldAction.FoldAllKeepsExisting | src/main/java/com/github/healarconr/loggerfolding/FoldLoggerMethodCallsAction.java:93-102 | a region that existed before is collapsed when its range was asked for, and otherwise left as it was |
| FoldAction.FoldAllNewRegions | src/main/java/com/github/healarconr/loggerfolding/FoldLoggerMethodCallsAction.java:95-102 | every new region comes from a request and is collapsed with that request's placeholder |
| FoldAction.FoldAllCollapsesRequested | src/main/java/com/github/healarconr/loggerfolding/FoldLoggerMethodCallsAction.java:89-104 | after folding, every requested range that existed or is valid holds a collapsed region |
| FoldAction.FoldAllIdempotent | src/main/java/com/github/healarconr/loggerfolding/FoldLoggerMethodCallsAction.java:89-104 | folding the same calls a second time changes nothing |
| FoldAction.FoldAllAppend | src/main/java/com/github/healarconr/loggerfolding/FoldLoggerMethodCallsAction.java:89-104 | folding two request lists in turn is folding their concatenation |
| FoldAction.RequestsAppend | src/main/java/com/github/healarconr/loggerfolding/FoldLoggerMethodCallsAction.java:51-63 | visiting two node lists in turn asks for the first list's folds followed by the second's |
| FoldAction.Fold | src/main/java/com/github/healarconr/loggerfolding/FoldLoggerMethodCallsAction.java:89-104 | collapses the region at the range, adding it first when none is there and the range is valid |
| FoldAction.VisitElement | src/main/java/com/github/healarconr/loggerfolding/FoldLoggerMethodCallsAction.java:51-77 | the visitor folds the subtree's logger calls, each node after its children in the modelled walk |
| FoldAction.ActionPerformed | src/main/java/com/github/healarconr/loggerfolding/FoldLoggerMethodCallsAction.java:39-80 | nothing changes when the action is unavailable; otherwise every logger call of the file is folded, with the Java helpers for a Java file and the Kotlin helpers for any other |
| UnfoldAction.UnfoldAllRemovesExactly | src/main/java/com/github/healarconr/loggerfolding/UnfoldLoggerMethodCallsAction.java:72-77 | unfolding removes exactly the regions at the matched ranges and keeps all others |
| UnfoldAction.MatchedRangesAreFoldedRanges | src/main/java/com/github/healarconr/loggerfolding/UnfoldLoggerMethodCallsAction.java:72-73 | the unfold action visits exactly the spans the fold action folds, in the same order |
| UnfoldAction.UnfoldUndoesFoldAll | src/main/java/com/github/healarconr/loggerfolding/UnfoldLoggerMethodCallsAction.java:65-130 | unfolding the ranges of a list of fold requests after folding them gives the regions from before, without those ranges |
| UnfoldAction.UnfoldUndoesFold | src/main/java/com/github/healarconr/loggerfolding/UnfoldLoggerMethodCallsAction.java:40-56 | unfolding a file after folding it leaves the regions from before, without the logger-call spans |
| UnfoldAction.GetFoldRegion | src/main/java/com/github/healarconr/loggerfolding/UnfoldLoggerMethodCallsAction.java:91-94 | finds a region exactly when one occupies the span, and returns that region |
| UnfoldAction.RemoveFoldRegion | src/main/java/com/github/healarconr/loggerfolding/UnfoldLoggerMethodCallsAction.java:102-105 | exactly the region's range goes |
| UnfoldAction.UnfoldAllAppend | src/main/java/com/github/healarconr/loggerfolding/UnfoldLoggerMethodCallsAction.java:72-77 | unfolding two range lists in turn is unfolding their concatenation |
| UnfoldAction.MatchedRangesAppend | src/main/java/com/github/healarconr/loggerfolding/UnfoldLoggerMethodCallsAction.java:69-79 | visiting two node lists in turn matches the first list's spans followed by the second's |
| UnfoldAction.UnfoldRange | src/main/java/com/github/healarconr/loggerfolding/UnfoldLoggerMethodCallsAction.java:73-77 | removes the region at the span if one is there |
| UnfoldAction.VisitElement | src/main/java/com/github/healarconr/loggerfolding/UnfoldLoggerMethodCallsAction.java:66-80 | the visitor removes the regions at the subtree's logger-call spans, each node after its children in the modelled walk |
| UnfoldAction.UnfoldJavaFile | src/main/java/com/github/healarconr/loggerfolding/UnfoldLoggerMethodCallsAction.java:65-81 | removes exactly the regions at the Java logger-call spans of the file |
| UnfoldAction.UnfoldKotlinFile | src/main/java/com/github/healarconr/loggerfolding/UnfoldLoggerMethodCallsAction.java:114-130 | removes exactly the regions at the Kotlin logger-call spans of the file |
| UnfoldAction.ActionPerformed | src/main/java/com/github/healarconr/loggerfolding/UnfoldLoggerMethodCallsAction.java:40-56 | nothing changes when the action is unavailable; otherwise exactly the regions at the file's logger-call spans go |
| LegacyFoldAction.Placeholder | src/com/github/healarconr/loggerfolding/FoldLoggerMethodCallsAction.java:64-67 | the placeholder is the method expression's text followed by exactly `(...);`, so the arguments are always elided and a `;` is always shown |
| LegacyFoldAction.FoldAllKeepsExisting | src/com/github/healarconr/loggerfolding/FoldLoggerMethodCallsAction.java:76-91 | a range holds a region afterwards exactly when it did before or it was asked for and was free and valid; regions that existed are left untouched |
| LegacyFoldAction.FoldAllNewRegions | src/com/github/healarconr/loggerfolding/FoldLoggerMethodCallsAction.java:83-88 | every new region comes from a request and is collapsed with that request's placeholder |
| LegacyFoldAction.FoldAllIdempotent | src/com/github/healarconr/loggerfolding/FoldLoggerMethodCallsAction.java:76-91 | folding the same calls a second time changes nothing |
| LegacyFoldAction.ExpandedRegionStaysExpanded | src/com/github/healarconr/loggerfolding/FoldLoggerMethodCallsAction.java:83-88 | a requested region that is already there and expanded stays expanded under the older fold, while the newer fold collapses it |
| LegacyFoldAction.RequestsAppend | src/com/github/healarconr/loggerfolding/FoldLoggerMethodCallsAction.java:40-53 | visiting two node lists in turn asks for the first list's folds followed by the second's |
| LegacyFoldAction.FoldAllAppend | src/com/github/healarconr/loggerfolding/FoldLoggerMethodCallsAction.java:76-91 | folding two request lists in turn is folding their concatenation |
| LegacyFoldAction.RequestsOfOne | src/com/github/healarconr/loggerfolding/FoldLoggerMethodCallsAction.java:46-51 | a node asks for a fold exactly when the older matcher accepts it, with the span widened to `;` and the older placeholder |
| LegacyFoldAction.Fold | src/com/github/healarconr/loggerfolding/FoldLoggerMethodCallsAction.java:76-91 | adds a collapsed region when the range is valid and free, and otherwise changes nothing |
| LegacyFoldAction.VisitElement | src/com/github/healarconr/loggerfolding/FoldLoggerMethodCallsAction.java:40-53 | the visitor folds the subtree's logger calls, each node after its children in the modelled walk |
| LegacyFoldAction.ActionPerformed | src/com/github/healarconr/loggerfolding/FoldLoggerMethodCallsAction.java:34-55 | nothing changes when the action is unavailable; an available file that is not a Java file fails the cast and changes nothing; a Java file has all its logger calls folded |
| LegacyFoldAction.AvailableKotlinFileIsNotJava | src/com/github/healarconr/loggerfolding/FoldLoggerMethodCallsAction.java:36-38 | an event with a project, an editor and a `KtFile` is available, yet the file is not a Java file |
| LegacyUnfoldAction.ActionPerformed | src/com/github/healarconr/loggerfolding/UnfoldLoggerMethodCallsAction.java:29-75 | nothing changes when the action is unavailable; otherwise exactly the regions at the file's logger-call spans go, matched against the state's set of names |
| ProjectSettings.StringHash | src/main/java/com/github/healarconr/loggerfolding/LoggerFoldingProjectSettings.java:92-95 | a string's hash is a 32-bit value |
| ProjectSettings.ToInt32 | src/main/java/com/github/healarconr/loggerfolding/LoggerFoldingProjectSettings.java:92-95 | reading a residue as a signed 32-bit `int` gives a value in range that is congruent to it modulo `2^32` |
| ProjectSettings.NamesHash | src/main/java/com/github/healarconr/loggerfolding/LoggerFoldingProjectSettings.java:92-95 | the state's hash is a signed 32-bit value |
| ProjectSettings.SumOfHashesRemoveAt | src/main/java/com/github/healarconr/loggerfolding/LoggerFoldingProjectSettings.java:92-95 | the sum of element hashes is the sum without one element plus that element's hash |
| ProjectSettings.SumOfHashesOfSameSet | src/main/java/com/github/healarconr/loggerfolding/LoggerFoldingProjectSettings.java:92-95 | two lists without duplicates holding the same names have the same sum of hashes, whatever their order |
| ProjectSettings.State.constructor | src/main/java/com/github/healarconr/loggerfolding/LoggerFoldingProjectSettings.java:51-70 | a fresh state holds the eight default names, once each, in the listed order |
| ProjectSettings.State.GetCanonicalNames | src/main/java/com/github/healarconr/loggerfolding/LoggerFoldingProjectSettings.java:72-74 | returns the stored names |
| ProjectSettings.State.SetCanonicalNames | src/main/java/com/github/healarconr/loggerfolding/LoggerFoldingProjectSettings.java:76-78 | the state holds a copy of the given set, with the same names in the same order |
| ProjectSettings.State.Equals | src/main/java/com/github/healarconr/loggerfolding/LoggerFoldingProjectSettings.java:80-90 | two states are equal exactly when they hold the same set of names, in any order |
| ProjectSettings.State.HashCode | src/main/java/com/github/healarconr/loggerfolding/LoggerFoldingProjectSettings.java:92-95 | the hash is a signed 32-bit value |
| ProjectSettings.HashCodeConsistentWithEquals | src/main/java/com/github/healarconr/loggerfolding/LoggerFoldingProjectSettings.java:80-95 | equal states have equal hash codes |
| ProjectSettings.LoggerFoldingProjectSettings.constructor | src/main/java/com/github/healarconr/loggerfolding/LoggerFoldingProjectSettings.java:21 | the component starts with a fresh default state |
| ProjectSettings.LoggerFoldingProjectSettings.GetState | src/main/java/com/github/healarconr/loggerfolding/LoggerFoldingProjectSettings.java:33-37 | hands out the held state itself |
| ProjectSettings.LoggerFoldingProjectSettings.LoadState | src/main/java/com/github/healarconr/loggerfolding/LoggerFoldingProjectSettings.java:39-42 | the given state becomes the held one |
| LegacySettings.State.constructor | src/com/github/healarconr/loggerfolding/LoggerFoldingProjectSettings.java:26-27 | a fresh state holds the eight default names, and its set holds the same names |
| LegacySettings.State.GetCanonicalNames | src/com/github/healarconr/loggerfolding/LoggerFoldingProjectSettings.java:29-31 | returns the stored list |
| LegacySettings.State.SetCanonicalNames | src/com/github/healarconr/loggerfolding/LoggerFoldingProjectSettings.java:33-36 | the list becomes the given one, and the set is rebuilt from it |
| LegacySettings.State.GetCanonicalNamesSet | src/com/github/healarconr/loggerfolding/LoggerFoldingProjectSettings.java:43-45 | a name is in the returned set exactly when it is in the list |
| LegacySettings.State.Equals | src/com/github/healarconr/loggerfolding/LoggerFoldingProjectSettings.java:47-57 | two states are equal exactly when their lists are equal, order and duplicates included |
| LegacySettings.EqualStatesMatchAlike | src/com/github/healarconr/loggerfolding/LoggerFoldingSettings.java:44-58 | equal states hand the matchers the same set of names |
| LegacySettings.PersistentSettings.constructor | src/com/github/healarconr/loggerfolding/LoggerFoldingSettings.java:84 | the component starts with a fresh default state |
| LegacySettings.PersistentSettings.GetState | src/com/github/healarconr/loggerfolding/LoggerFoldingSettings.java:86-90 | hands out the held state itself |
| LegacySettings.PersistentSettings.LoadState | src/com/github/healarconr/loggerfolding/LoggerFoldingSettings.java:92-95 | the given state becomes the held one |
| ApplicationSettings.State.constructor | src/com/github/healarconr/loggerfolding/LoggerFoldingApplicationSettings.java:24 | collapse-by-default starts off |
| ApplicationSettings.State.GetCollapseByDefault | src/com/github/healarconr/loggerfolding/LoggerFoldingApplicationSettings.java:26-28 | returns the flag |
| ApplicationSettings.State.SetCollapseByDefault | src/com/github/healarconr/loggerfolding/LoggerFoldingApplicationSettings.java:30-32 | the flag becomes the given value |
| ApplicationSettings.State.Equals | src/com/github/healarconr/loggerfolding/LoggerFoldingApplicationSettings.java:34-42 | two states are equal exactly when their flags are |
| ApplicationSettings.State.HashCode | src/com/github/healarconr/loggerfolding/LoggerFoldingApplicationSettings.java:44-47 | the hash is 1231 exactly when the flag is on and 1237 exactly when it is off |
| ApplicationSettings.HashCodeMatchesEquals | src/com/github/healarconr/loggerfolding/LoggerFoldingApplicationSettings.java:34-47 | two states have the same hash code exactly when they are equal |
| ApplicationSettings.LoggerFoldingApplicationSettings.constructor | src/com/github/healarconr/loggerfolding/LoggerFoldingApplicationSettings.java:50 | the component starts with collapse-by-default off |
| ApplicationSettings.LoggerFoldingApplicationSettings.GetState | src/com/github/healarconr/loggerfolding/LoggerFoldingApplicationSettings.java:52-56 | hands out the held state itself |
| ApplicationSettings.LoggerFoldingApplicationSettings.LoadState | src/com/github/healarconr/loggerfolding/LoggerFoldingApplicationSettings.java:58-61 | the given state becomes the held one |
| Configurable.CanonicalNamesTableModel.constructor | src/com/github/healarconr/loggerfolding/LoggerFoldingConfigurable.java:123-125 | the table holds the given names, or none for a missing list |
| Configurable.CanonicalNamesTableModel.SetCanonicalNames | src/com/github/healarconr/loggerfolding/LoggerFoldingConfigurable.java:169-171 | the rows become the given names, or no rows for a missing list |
| Configurable.CanonicalNamesTableModel.GetRowCount | src/com/github/healarconr/loggerfolding/LoggerFoldingConfigurable.java:127-130 | one row per name |
| Configurable.CanonicalNamesTableModel.GetValueAt | src/com/github/healarconr/loggerfolding/LoggerFoldingConfigurable.java:137-140 | the value of a row is its name |
| Configurable.CanonicalNamesTableModel.SetValueAt | src/com/github/healarconr/loggerfolding/LoggerFoldingConfigurable.java:152-155 | only the edited row changes |
| Configurable.CanonicalNamesTableModel.AddEmptyRow | src/com/github/healarconr/loggerfolding/LoggerFoldingConfigurable.java:157-159 | an empty name is inserted at the index |
| Configurable.CanonicalNamesTableModel.Remove | src/com/github/healarconr/loggerfolding/LoggerFoldingConfigurable.java:161-163 | the row at the index goes and the others keep their order |
| Configurable.CanonicalNamesTableModel.GetCanonicalNames | src/com/github/healarconr/loggerfolding/LoggerFoldingConfigurable.java:165-167 | returns the rows |
| Configurable.LoggerFoldingConfigurable.constructor | src/com/github/healarconr/loggerfolding/LoggerFoldingConfigurable.java:57-58 | the page starts with an empty table and nothing selected |
| Configurable.LoggerFoldingConfigurable.AddAction | src/com/github/healarconr/loggerfolding/LoggerFoldingConfigurable.java:60-72 | an empty row goes just below the selection, or first when nothing is selected, and becomes the selection |
| Configurable.LoggerFoldingConfigurable.RemoveAction | src/com/github/healarconr/loggerfolding/LoggerFoldingConfigurable.java:73-86 | nothing happens without a selection; otherwise the selected row goes, and the selection stays at its index or moves up one when the last row went, and is cleared when the table is now empty |
| Configurable.LoggerFoldingConfigurable.IsModified | src/com/github/healarconr/loggerfolding/LoggerFoldingConfigurable.java:94-100 | the page is modified exactly when its rows differ from the stored list |
| Configurable.LoggerFoldingConfigurable.Apply | src/com/github/healarconr/loggerfolding/LoggerFoldingConfigurable.java:102-106 | the rows become the stored list, after which the page is not modified |
| Configurable.LoggerFoldingConfigurable.Reset | src/com/github/healarconr/loggerfolding/LoggerFoldingConfigurable.java:108-112 | the rows become the stored list again, after which the page is not modified |
| Configurable.AddThenRemoveRestoresRows | src/com/github/healarconr/loggerfolding/LoggerFoldingConfigurable.java:60-86 | adding a row and then removing the new selection gives back the rows from before |

## Left out

- Service lookup (`getInstance`), XML persistence of the states and the IDE's action and extension registration are host framework, not logic.
- Batch folding operations and threading (`runBatchFoldingOperation`, `getActionUpdateThread`, `update`'s visibility toggle) are not modelled; each fold or removal is one atomic update of the folding model.
- The PSI is a value tree. File classes, found by `instanceof` or by the class's canonical name, are an enumeration. Type resolution, import lookup and reference resolution are given as data on the nodes.
- The host folding model's rules on overlapping and nested regions are not modelled. Adding fails only on an invalid range or an occupied one.
- `getCanonicalNames` hands out the stored collection itself in the source, so a caller could mutate it. The model returns a value, so that aliasing is not captured.
- ApplicationSettings.State.HashCode: `Boolean.hashCode` (1231 or 1237) is modelled, but a `null` flag, which would throw, is not.
- ProjectSettings.StringHash: sums hashes over Dafny characters, not over the UTF-16 code units `String.hashCode` uses, so characters outside the Basic Multilingual Plane hash differently.
- `equals` against objects of other classes is not modelled: the argument is always a state or `null`.
- The `hashCode` of the older settings states is not modelled; `equals` on them is list equality and needs no hash argument here.
- `createComponent`'s widgets, table events, cell editing focus and `getDisplayName`/`getHelpTopic` are UI and are not modelled. Only the rows and the selected row are kept.
- Configurable.LoggerFoldingConfigurable.AddAction: the branch for a selection index below zero is dead, since a table's selection is never below `-1`, and the model asserts it away instead of falling back to the row count.
- Configurable.LoggerFoldingConfigurable.Reset: clearing the selection is the host table's reaction to `fireTableDataChanged`, not code of the plugin.
- Configurable.LoggerFoldingConfigurable.RemoveAction: the empty-table case clears the selection as the host table does when its last row goes; the source itself sets no selection then.
- JavaFoldingBuilder.IsCollapsedByDefault and KotlinFoldingBuilder.IsCollapsedByDefault: the source returns a constant, so there is nothing beyond it to state.
- The older unfold action's `getFoldRegion` and `removeFoldRegion` are the same as the newer action's, and are modelled once by `UnfoldAction.GetFoldRegion` and `UnfoldAction.RemoveFoldRegion`.
- The order in which the fold and unfold actions test nodes. The host's `PsiRecursiveElementWalkingVisitor` tests every descendant before that descendant's children, and the root file last. The model walks in post-order instead. The order cannot change which ranges an unfold removes (`UnfoldAction.UnfoldAllRemovesExactly`) or which ranges a fold leaves collapsed (`FoldAction.FoldAllKeys`, `FoldAction.FoldAllCollapsesRequested`). It can only decide which placeholder a new region gets when two matched calls share one span. For nested matches the Java spans and the Kotlin spans never coincide, so in practice the placeholders agree as well.
- `FoldingOptionsProvider` is UI and is not part of this model.

## Findings

| source | as written | input that shows it | evidently intended | confidence | as-written member | corrected member |
|---|---|---|---|---|---|---|
| src/com/github/healarconr/loggerfolding/FoldLoggerMethodCallsAction.java:38 | casts the event's file to `PsiJavaFile`, while `isAvailable` (ActionHelper.java:35-36) also admits a `KtFile` | an event with a project, an editor and a `KtFile`: the action is available and the cast throws `ClassCastException` | dispatch on the file's kind and fold Kotlin files with the Kotlin helpers, as the newer action does | not executed | LegacyFoldAction.AvailableKotlinFileIsNotJava | FoldAction.ActionPerformed |
