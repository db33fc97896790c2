/**
 * `ActionHelper.isAvailable`: whether the fold and unfold actions apply to
 * an action event.
 */
module ActionHelper {
  import opened Wrappers
  import opened Psi

  /**
   * What an action event carries: whether a project and an editor are
   * present, and the PSI file, if any. The editor itself is passed to the
   * actions separately.
   */
  datatype ActionEvent = ActionEvent(hasProject: bool, hasEditor: bool, psiFile: Option<Element>)

  /**
   * Available exactly when project, editor and file are all present and the
   * file is a Java file or a `KtFile`.
   */
  function IsAvailable(actionEvent: ActionEvent): (r: bool)
    ensures !actionEvent.hasProject || !actionEvent.hasEditor || actionEvent.psiFile.None? ==> !r
    ensures actionEvent.psiFile.Some? && !actionEvent.psiFile.value.kind.PsiFileElement? ==> !r
    ensures actionEvent.psiFile.Some? && IsFileOfType(actionEvent.psiFile.value, OtherFile) ==> !r
    ensures (actionEvent.hasProject && actionEvent.hasEditor && actionEvent.psiFile.Some? &&
             (IsFileOfType(actionEvent.psiFile.value, JavaFile) || IsFileOfType(actionEvent.psiFile.value, KotlinFile))) ==> r
  {
    var project, editor, psiFile := actionEvent.hasProject, actionEvent.hasEditor, actionEvent.psiFile;
    project && editor && psiFile.Some? &&
    (IsFileOfType(psiFile.value, JavaFile) || IsFileOfType(psiFile.value, KotlinFile))
  }
}
