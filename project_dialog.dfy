/**
 * The create/edit project dialog: the form it starts from, the required fields, and whether a
 * submit updates the project or inserts a new one.
 */
module ProjectDialog {
  import opened Common
  import opened Ui
  import opened ProjectCard
  import AuthContext

  /** The form a new project starts from; the owner is the current user, or empty without one. */
  function DefaultForm(userId: Option<string>): (form: Project)
    ensures form.id.None? && form.title == "" && form.status == "planning" && form.priority == "medium"
    ensures form.budget == Some(0) && form.completion == Some(0)
    ensures form.ownerId == (if userId.Some? then userId.value else "")
  {
    Project(None, "", Some(""), "planning", "medium", userId.GetOr(""), Some(""), Some(""), Some(0), Some(0), Some(""), Some(""))
  }

  function UserId(user: Option<AuthContext.User>): Option<string> {
    if user.Some? then Some(user.value.id) else None
  }

  /**
   * The two writes. An insert sends the form with `owner_id` replaced by the current user's id;
   * `ownerId` is `None` when there is no user, so the key is left undefined.
   */
  datatype Write = Update(id: string, form: Project) | Insert(form: Project, ownerId: Option<string>)

  /** `!formData.title || !formData.owner_id`. */
  predicate MissingRequired(form: Project) {
    form.title == "" || form.ownerId == ""
  }

  /** The write a submit performs: none for a missing field, an update only for a saved project. */
  function SubmitPlan(form: Project, project: Option<Project>, userId: Option<string>): (w: Option<Write>)
    ensures w.None? <==> MissingRequired(form)
    ensures w.Some? && w.value.Update? <==> !MissingRequired(form) && project.Some? && Truthy(project.value.id)
    ensures w.Some? && w.value.Update? ==> w.value.id == project.value.id.value && w.value.form == form
    ensures w.Some? && w.value.Insert? ==> w.value.form == form && w.value.ownerId == userId
  {
    if MissingRequired(form) then None
    else if project.Some? && Truthy(project.value.id) then Some(Update(project.value.id.value, form))
    else Some(Insert(form, userId))
  }

  const FillRequired := "Please fill in required fields"
  const SaveFailed := "Failed to save project"

  /** The message of a failed write: `error.message`, or the fixed text when it is empty. */
  function FailureText(message: string): (text: string)
    ensures text != ""
    ensures message != "" ==> text == message
  {
    if message == "" then SaveFailed else message
  }

  /** The effects of a submit; `writeError` is the error the write answers with, if any. */
  function SubmitEffects(form: Project, project: Option<Project>, userId: Option<string>, writeError: Option<string>): (effects: seq<Effect<Write>>)
    ensures SendsRequest(effects) <==> SubmitPlan(form, project, userId).Some?
    ensures ReportsSuccess(effects) <==> SubmitPlan(form, project, userId).Some? && writeError.None?
  {
    match SubmitPlan(form, project, userId)
    case None => [SetBusy(true), ShowToast(Error(FillRequired)), SetBusy(false)]
    case Some(w) =>
      if writeError.Some? then
        var effects: seq<Effect<Write>> := [SetBusy(true), Send(w), ShowToast(Error(FailureText(writeError.value))), SetBusy(false)];
        assert effects[1].Send?;
        effects
      else
        var done := if w.Update? then "Project updated successfully" else "Project created successfully";
        var effects: seq<Effect<Write>> := [SetBusy(true), Send(w), ShowToast(Success(done)), Call("onSave"), SetBusy(false)];
        assert effects[1].Send? && effects[2].ShowToast? && effects[2].toast.Success?;
        effects
  }

  /**
   * `onSave` runs only after a write that succeeded; a missing field sends nothing; and the busy
   * flag is raised first and lowered last on every path.
   */
  lemma OnSaveOnlyAfterSavedWrite(form: Project, project: Option<Project>, userId: Option<string>, writeError: Option<string>)
    ensures var e := SubmitEffects(form, project, userId, writeError);
      (Call("onSave") in e <==> !MissingRequired(form) && writeError.None?) &&
      (SendsRequest(e) <==> !MissingRequired(form)) &&
      e[0] == SetBusy(true) && e[|e| - 1] == SetBusy(false)
  {
    var e := SubmitEffects(form, project, userId, writeError);
    if !MissingRequired(form) {
      assert e[1].Send?;
    }
  }

  /** The heading: "Edit Project" whenever a project is given, with or without an id. */
  function DialogTitle(project: Option<Project>): (title: string)
    ensures project.Some? ==> title == "Edit Project"
    ensures project.None? ==> title == "Create New Project"
  {
    if project.Some? then "Edit Project" else "Create New Project"
  }

  /** A project without an id is shown as being edited, yet submitting it inserts a new row. */
  lemma EditTitledButInserted(project: Project, userId: Option<string>)
    requires project.id.None? && !MissingRequired(project)
    ensures DialogTitle(Some(project)) == "Edit Project"
    ensures SubmitPlan(project, Some(project), userId) == Some(Insert(project, userId))
  {
  }

  /** The dialog's state. */
  class ProjectForm {
    var formData: Project
    var loading: bool

    constructor (user: Option<AuthContext.User>)
      ensures formData == DefaultForm(UserId(user)) && !loading
    {
      formData := DefaultForm(UserId(user));
      loading := false;
    }

    /** The effect run when `project` or `user` changes: load the project, or the defaults. */
    method Reset(project: Option<Project>, user: Option<AuthContext.User>)
      modifies this
      ensures formData == (if project.Some? then project.value else DefaultForm(UserId(user)))
      ensures loading == old(loading)
    {
      if project.Some? {
        formData := project.value;
      } else {
        formData := DefaultForm(UserId(user));
      }
    }

    /** `handleSubmit`. */
    method HandleSubmit(project: Option<Project>, user: Option<AuthContext.User>, writeError: Option<string>)
      returns (effects: seq<Effect<Write>>)
      modifies this
      ensures effects == SubmitEffects(old(formData), project, UserId(user), writeError)
      ensures !loading && formData == old(formData)
    {
      loading := true;
      effects := [SetBusy(true)];
      if MissingRequired(formData) {
        effects := effects + [ShowToast(Error(FillRequired))];
      } else {
        var w: Write;
        var done: string;
        if project.Some? && Truthy(project.value.id) {
          w := Update(project.value.id.value, formData);
          done := "Project updated successfully";
        } else {
          w := Insert(formData, UserId(user));
          done := "Project created successfully";
        }
        effects := effects + [Send(w)];
        if writeError.Some? {
          effects := effects + [ShowToast(Error(FailureText(writeError.value)))];
        } else {
          effects := effects + [ShowToast(Success(done)), Call("onSave")];
        }
      }
      loading := false;
      effects := effects + [SetBusy(false)];
    }
  }
}
