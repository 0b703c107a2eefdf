/**
 * The actions page: creating an action, moving it along its status chain, who may do what,
 * the search, the two derived tabs and the counters.
 */
module Actions {
  import opened Common
  import opened Roles
  import opened Text
  import opened Seqs
  import opened Ui
  import ProjectCard
  import Projects

  /**
   * An action as the page holds it. `due` is the instant its `due_date` parses to, or `None`
   * when the text is not a date (an invalid date compares false with everything).
   */
  datatype Action = Action(
    id: string,
    title: string,
    description: string,
    projectId: string,
    ownerId: string,
    assignedTo: string,
    status: string,
    priority: string,
    due: Option<int>,
    completedDate: Option<string>)

  /** The create form. */
  datatype ActionForm = ActionForm(
    title: string,
    description: string,
    projectId: string,
    assignedTo: string,
    priority: string,
    dueDate: string)

  const EmptyForm := ActionForm("", "", "", "", "medium", "")

  /** The body of a status update: the new status, and the completion instant when completing. */
  datatype StatusUpdate = StatusUpdate(status: string, completedDate: Option<string>)

  datatype ActionsRequest =
    | SelectActions
    | InsertAction(form: ActionForm, ownerId: Option<string>)
    | UpdateAction(id: string, update: StatusUpdate)

  /** `!title || !due_date || !assigned_to`; description and project are optional. */
  predicate MissingRequired(form: ActionForm) {
    form.title == "" || form.dueDate == "" || form.assignedTo == ""
  }

  /**
   * `updateData`: the status, plus `completed_date` set to `now` exactly when the new status
   * is `completed`.
   */
  method BuildStatusUpdate(newStatus: string, now: string) returns (u: StatusUpdate)
    ensures u.status == newStatus
    ensures u.completedDate.Some? <==> newStatus == "completed"
    ensures u.completedDate.Some? ==> u.completedDate.value == now
  {
    u := StatusUpdate(newStatus, None);
    if newStatus == "completed" {
      u := u.(completedDate := Some(now));
    }
  }

  /** The position of a status on the chain pending, in-progress, completed, verified. */
  function Stage(status: string): Option<nat> {
    if status == "pending" then Some(0)
    else if status == "in-progress" then Some(1)
    else if status == "completed" then Some(2)
    else if status == "verified" then Some(3)
    else None
  }

  /** The status the card's button moves an action to, if it shows one. */
  function NextStatus(status: string, role: Option<UserRole>): (next: Option<string>)
    ensures next.Some? <==> status == "pending" || status == "in-progress" || (status == "completed" && role != Some(Known(ProjectOfficer)))
    ensures next.Some? ==> next.value != status
  {
    if status == "pending" then Some("in-progress")
    else if status == "in-progress" then Some("completed")
    else if status == "completed" && role != Some(Known(ProjectOfficer)) then Some("verified")
    else None
  }

  /** A button always moves one step forward on the chain, and only from a status on it. */
  lemma NextStatusIsOneStep(status: string, role: Option<UserRole>)
    ensures NextStatus(status, role).Some? ==>
      Stage(status).Some? && Stage(NextStatus(status, role).value) == Some(Stage(status).value + 1)
    ensures Stage(status).None? || status == "verified" ==> NextStatus(status, role).None?
  {
  }

  /** Verify is offered for a completed action to every role but project_officer, null included. */
  lemma VerifyGate(role: Option<UserRole>)
    ensures NextStatus("completed", role).Some? <==> role != Some(Known(ProjectOfficer))
    ensures NextStatus("completed", None) == Some("verified")
  {
  }

  /** Following the buttons from `pending`: three steps reach `verified`, an officer stops at `completed`. */
  lemma ChainFromPending(role: Option<UserRole>)
    ensures NextStatus("pending", role) == Some("in-progress")
    ensures NextStatus("in-progress", role) == Some("completed")
    ensures role != Some(Known(ProjectOfficer)) ==> NextStatus("completed", role) == Some("verified")
    ensures NextStatus("verified", role).None?
    ensures NextStatus("completed", Some(Known(ProjectOfficer))).None?
  {
  }

  datatype StatusIcon = CheckCircle2Icon | ClockIcon | AlertCircleIcon

  datatype StatusTone = NavyTone | ChartTone | GoldTone | DestructiveTone | MutedTone

  /** `getStatusIcon`: both finished statuses share one icon; every other status but overdue a clock. */
  function IconFor(status: string): (icon: StatusIcon)
    ensures icon == CheckCircle2Icon <==> status == "completed" || status == "verified"
    ensures icon == AlertCircleIcon <==> status == "overdue"
  {
    if status == "completed" || status == "verified" then CheckCircle2Icon
    else if status == "overdue" then AlertCircleIcon
    else ClockIcon
  }

  /** `getStatusColor`: four statuses and a muted default. */
  function ColorFor(status: string): (tone: StatusTone)
    ensures tone == MutedTone <==> status != "completed" && status != "verified" && status != "in-progress" && status != "overdue"
  {
    if status == "completed" then NavyTone
    else if status == "verified" then ChartTone
    else if status == "in-progress" then GoldTone
    else if status == "overdue" then DestructiveTone
    else MutedTone
  }

  /** The icon and colour together tell apart every status the table names; colour alone does. */
  lemma ColorSeparatesSharedIcons()
    ensures IconFor("completed") == IconFor("verified") && ColorFor("completed") != ColorFor("verified")
    ensures IconFor("pending") == IconFor("in-progress") && ColorFor("pending") != ColorFor("in-progress")
    ensures ColorFor("pending") == MutedTone
  {
  }

  /** `canCreateAction`. */
  predicate CanCreateAction(role: Option<UserRole>)
    ensures CanCreateAction(role) ==> role.Some? && role.value.Known?
    ensures CanCreateAction(role) ==> role.value.role != TopManagement && role.value.role != ProjectOfficer
  {
    role == Some(Known(ProjectManager)) || role == Some(Known(ProjectOwner)) || role == Some(Known(SystemAdmin))
  }

  /** Creating actions, creating projects and editing projects are allowed to the same roles. */
  lemma SameRolesCreateAndEdit(role: Option<UserRole>)
    ensures CanCreateAction(role) <==> Projects.CanCreateProject(role)
    ensures CanCreateAction(role) <==> ProjectCard.CanEdit(role)
  {
    Projects.CreateProjectIffEdit(role);
  }

  /** `filteredActions`: a case-insensitive search of the titles. */
  function SearchActions(actions: seq<Action>, query: string): (r: seq<Action>)
    ensures IsSubsequence(r, actions)
    ensures forall i :: 0 <= i < |r| ==> MatchesIgnoringCase(r[i].title, query)
    ensures forall i :: 0 <= i < |actions| && MatchesIgnoringCase(actions[i].title, query) ==> actions[i] in r
    ensures multiset(r) <= multiset(actions)
    ensures forall i :: 0 <= i < |actions| && MatchesIgnoringCase(actions[i].title, query) ==> multiset(r)[actions[i]] == multiset(actions)[actions[i]]
  {
    var keep := (a: Action) => MatchesIgnoringCase(a.title, query);
    FilterIsSubsequence(actions, keep);
    FilterMultiset(actions, keep);
    Filter(actions, keep)
  }

  /** An action of the "my actions" tab: assigned to the signed-in user (none without one). */
  predicate AssignedTo(a: Action, userId: Option<string>)
    ensures AssignedTo(a, userId) ==> userId.Some?
  {
    userId.Some? && a.assignedTo == userId.value
  }

  /** An action of the "overdue" tab: due before `now` and neither completed nor verified. */
  predicate Overdue(a: Action, now: int)
    ensures Overdue(a, now) ==> a.due.Some? && a.status != "completed" && a.status != "verified"
    ensures a.due.Some? && a.due.value >= now ==> !Overdue(a, now)
  {
    a.due.Some? && a.due.value < now && a.status != "completed" && a.status != "verified"
  }

  function MyActions(shown: seq<Action>, userId: Option<string>): (r: seq<Action>)
    ensures IsSubsequence(r, shown)
    ensures forall i :: 0 <= i < |r| ==> AssignedTo(r[i], userId)
    ensures forall i :: 0 <= i < |shown| && AssignedTo(shown[i], userId) ==> shown[i] in r
    ensures multiset(r) <= multiset(shown)
    ensures forall i :: 0 <= i < |shown| && AssignedTo(shown[i], userId) ==> multiset(r)[shown[i]] == multiset(shown)[shown[i]]
    ensures userId.None? ==> r == []
  {
    var keep := (a: Action) => AssignedTo(a, userId);
    FilterIsSubsequence(shown, keep);
    FilterMultiset(shown, keep);
    if userId.None? then FilterNone(shown, keep); Filter(shown, keep) else Filter(shown, keep)
  }

  function OverdueActions(shown: seq<Action>, now: int): (r: seq<Action>)
    ensures IsSubsequence(r, shown)
    ensures forall i :: 0 <= i < |r| ==> Overdue(r[i], now)
    ensures forall i :: 0 <= i < |shown| && Overdue(shown[i], now) ==> shown[i] in r
    ensures multiset(r) <= multiset(shown)
    ensures forall i :: 0 <= i < |shown| && Overdue(shown[i], now) ==> multiset(r)[shown[i]] == multiset(shown)[shown[i]]
  {
    var keep := (a: Action) => Overdue(a, now);
    FilterIsSubsequence(shown, keep);
    FilterMultiset(shown, keep);
    Filter(shown, keep)
  }

  /** An action with a date that does not parse is never overdue. */
  lemma InvalidDueDateNeverOverdue(a: Action, now: int)
    requires a.due.None?
    ensures !Overdue(a, now)
  {
  }

  /** Both tabs draw on the searched list, so they list only actions of the page, in order. */
  lemma TabsWithinActions(actions: seq<Action>, query: string, userId: Option<string>, now: int)
    ensures IsSubsequence(MyActions(SearchActions(actions, query), userId), actions)
    ensures IsSubsequence(OverdueActions(SearchActions(actions, query), now), actions)
  {
    var shown := SearchActions(actions, query);
    SubsequenceTransitive(MyActions(shown, userId), shown, actions);
    SubsequenceTransitive(OverdueActions(shown, now), shown, actions);
  }

  /** The number of actions with the given status. */
  function CountStatus(actions: seq<Action>, status: string): (n: nat)
    ensures n <= |actions|
    ensures n == |Positions(actions, (a: Action) => a.status == status)|
  {
    var withStatus := (a: Action) => a.status == status;
    FilterCount(actions, withStatus);
    |Filter(actions, withStatus)|
  }

  /** The three counters never add up to more than the total. */
  lemma StatsWithinTotal(actions: seq<Action>)
    ensures CountStatus(actions, "pending") + CountStatus(actions, "in-progress") + CountStatus(actions, "completed") <= |actions|
  {
    ExclusiveCounts3(actions, (a: Action) => a.status == "pending", (a: Action) => a.status == "in-progress",
      (a: Action) => a.status == "completed");
  }

  /** The page's state. */
  class ActionsPage {
    var actions: seq<Action>
    var loading: bool
    var searchQuery: string
    var dialogOpen: bool
    var formData: ActionForm

    constructor ()
      ensures actions == [] && loading && searchQuery == "" && !dialogOpen && formData == EmptyForm
    {
      actions, loading, searchQuery := [], true, "";
      dialogOpen, formData := false, EmptyForm;
    }

    /** `fetchActions`: the rows replace the list (null as none); an error keeps it. */
    method FetchActions(answer: Loaded<Action>) returns (effects: seq<Effect<ActionsRequest>>)
      modifies this
      ensures answer.Loaded? ==> actions == RowsOr(answer.data) && effects == [Send(SelectActions)]
      ensures answer.LoadFailed? ==> actions == old(actions) && effects == [Send(SelectActions), ShowToast(Error("Failed to load actions"))]
      ensures !loading && searchQuery == old(searchQuery) && dialogOpen == old(dialogOpen) && formData == old(formData)
    {
      effects := [Send(SelectActions)];
      if answer.Loaded? {
        actions := RowsOr(answer.data);
      } else {
        effects := effects + [ShowToast(Error("Failed to load actions"))];
      }
      loading := false;
    }

    /**
     * `handleCreateAction`: a missing field stops at a toast; otherwise the form is inserted
     * with the user as owner, and only a successful insert closes the dialog, resets the form
     * and reloads the list.
     */
    method HandleCreateAction(userId: Option<string>, insertError: Option<string>) returns (effects: seq<Effect<ActionsRequest>>)
      modifies this
      ensures MissingRequired(old(formData)) ==>
        effects == [ShowToast(Error("Please fill in all required fields"))] && formData == old(formData) && dialogOpen == old(dialogOpen)
      ensures !MissingRequired(old(formData)) && insertError.Some? ==>
        effects == [Send(InsertAction(old(formData), userId)), ShowToast(Error("Failed to create action"))] &&
        formData == old(formData) && dialogOpen == old(dialogOpen)
      ensures !MissingRequired(old(formData)) && insertError.None? ==>
        effects == [Send(InsertAction(old(formData), userId)), ShowToast(Success("Action created successfully")), Call("fetchActions")] &&
        formData == EmptyForm && !dialogOpen
      ensures actions == old(actions) && loading == old(loading) && searchQuery == old(searchQuery)
    {
      if MissingRequired(formData) {
        effects := [ShowToast(Error("Please fill in all required fields"))];
        return;
      }
      effects := [Send(InsertAction(formData, userId))];
      if insertError.Some? {
        effects := effects + [ShowToast(Error("Failed to create action"))];
        return;
      }
      effects := effects + [ShowToast(Success("Action created successfully"))];
      dialogOpen := false;
      formData := EmptyForm;
      effects := effects + [Call("fetchActions")];
    }

    /** `handleUpdateStatus`: one update of the action; a reload follows only a successful one. */
    method HandleUpdateStatus(actionId: string, newStatus: string, now: string, updateError: Option<string>)
      returns (effects: seq<Effect<ActionsRequest>>)
      ensures |effects| >= 2 && effects[0].Send? && effects[0].request.UpdateAction? && effects[0].request.id == actionId
      ensures effects[0].request.update.status == newStatus
      ensures effects[0].request.update.completedDate.Some? <==> newStatus == "completed"
      ensures updateError.None? <==> Call("fetchActions") in effects
      ensures updateError.None? ==> effects[1] == ShowToast(Success("Action status updated"))
      ensures updateError.Some? ==> effects[1] == ShowToast(Error("Failed to update action"))
    {
      var u := BuildStatusUpdate(newStatus, now);
      effects := [Send(UpdateAction(actionId, u))];
      if updateError.Some? {
        effects := effects + [ShowToast(Error("Failed to update action"))];
      } else {
        effects := effects + [ShowToast(Success("Action status updated")), Call("fetchActions")];
      }
    }

    /** The three lists of the page. */
    function Shown(): seq<Action>
      reads this
    {
      SearchActions(actions, searchQuery)
    }
  }
}
