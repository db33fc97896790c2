/**
 * `UnfoldLoggerMethodCallsAction` (older generation): the same walk as the
 * newer unfold action, with the registry read from the older settings
 * state's hash set.
 */
module LegacyUnfoldAction {
  import opened Psi
  import opened FoldingModel
  import ActionHelper
  import FoldAction
  import UnfoldAction
  import LegacySettings

  /**
   * `actionPerformed`: nothing when the action is unavailable; otherwise
   * the regions at the logger-call spans of the file are removed, Java
   * files with the Java helper and every other file with the Kotlin helper,
   * against the names of the settings state.
   */
  method ActionPerformed(actionEvent: ActionHelper.ActionEvent, editor: FoldingModel, state: LegacySettings.State)
    requires editor.Valid() && state.Valid()
    modifies editor
    ensures editor.Valid()
    ensures !ActionHelper.IsAvailable(actionEvent) ==> editor.regions == old(editor.regions)
    ensures ActionHelper.IsAvailable(actionEvent) ==>
      var psiFile := actionEvent.psiFile.value;
      var ranges := UnfoldAction.MatchedRanges(FoldAction.LanguageOf(psiFile), PostOrder(psiFile), state.canonicalNamesSet);
      editor.regions == old(editor.regions) - (set range | range in ranges)
  {
    if !ActionHelper.IsAvailable(actionEvent) {
      return;
    }
    var psiFile := actionEvent.psiFile.value;
    var canonicalNames := state.GetCanonicalNamesSet();
    var language := if IsFileOfType(psiFile, JavaFile) then FoldAction.Java else FoldAction.Kotlin;
    UnfoldAction.VisitElement(language, editor, psiFile, canonicalNames);
    UnfoldAction.UnfoldAllRemovesExactly(old(editor.regions), UnfoldAction.MatchedRanges(language, PostOrder(psiFile), canonicalNames));
  }
}
