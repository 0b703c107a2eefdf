/**
 * A project as the project pages hold it, and the card that shows one: who may edit it, the
 * badge tones with their fallbacks, the status label and which detail lines appear.
 */
module ProjectCard {
  import opened Common
  import opened Roles
  import opened Text

  /**
   * A row of the `projects` table as the pages use it. Nullable columns are options; `id` is
   * absent on a project the dialog has not saved yet.
   */
  datatype Project = Project(
    id: Option<string>,
    title: string,
    description: Option<string>,
    status: string,
    priority: string,
    ownerId: string,
    startDate: Option<string>,
    endDate: Option<string>,
    budget: Option<int>,
    completion: Option<int>,
    location: Option<string>,
    category: Option<string>)

  /** The roles that may edit projects. */
  const EditorRoles: set<Role> := {ProjectOwner, ProjectManager, SystemAdmin}

  /** `canEdit`: the role is one of three values; false for a null or unknown role. */
  predicate CanEdit(role: Option<UserRole>)
    ensures CanEdit(role) ==> role.Some? && role.value.Known?
  {
    role == Some(Known(ProjectOwner)) || role == Some(Known(ProjectManager)) || role == Some(Known(SystemAdmin))
  }

  lemma CanEditIffEditorRole(role: Option<UserRole>)
    ensures CanEdit(role) <==> role.Some? && role.value.Known? && role.value.role in EditorRoles
    ensures !CanEdit(Some(Known(TopManagement))) && !CanEdit(Some(Known(ProjectOfficer))) && !CanEdit(None)
  {
  }

  /** The colour classes of the badges, by hue. */
  datatype Tone = Blue | Navy | Gold | Purple | Red | Muted | Destructive

  /** The `statusColors` table, if it has an entry for `status`. */
  function StatusColor(status: string): (tone: Option<Tone>)
    ensures tone.Some? <==> status in {"planning", "active", "on_hold", "completed", "cancelled"}
  {
    if status == "planning" then Some(Blue)
    else if status == "active" then Some(Navy)
    else if status == "on_hold" then Some(Gold)
    else if status == "completed" then Some(Purple)
    else if status == "cancelled" then Some(Red)
    else None
  }

  /** The `priorityColors` table, if it has an entry for `priority`. */
  function PriorityColor(priority: string): (tone: Option<Tone>)
    ensures tone.Some? <==> priority in {"low", "medium", "high", "critical"}
  {
    if priority == "low" then Some(Muted)
    else if priority == "medium" then Some(Gold)
    else if priority == "high" then Some(Red)
    else if priority == "critical" then Some(Destructive)
    else None
  }

  /** The status badge: its table entry, or the `planning` entry when there is none. */
  function StatusTone(status: string): (t: Tone)
    ensures StatusColor(status).Some? ==> t == StatusColor(status).value
    ensures StatusColor(status).None? ==> t == StatusColor("planning").value
  {
    StatusColor(status).GetOr(StatusColor("planning").value)
  }

  /** The priority badge: its table entry, or the `medium` entry when there is none. */
  function PriorityTone(priority: string): (t: Tone)
    ensures PriorityColor(priority).Some? ==> t == PriorityColor(priority).value
    ensures PriorityColor(priority).None? ==> t == PriorityColor("medium").value
  {
    PriorityColor(priority).GetOr(PriorityColor("medium").value)
  }

  /** Every status outside the table looks like `planning`; every other priority like `medium`. */
  lemma UnknownStatusLooksPlanning(status: string, priority: string)
    requires StatusColor(status).None? && PriorityColor(priority).None?
    ensures StatusTone(status) == StatusTone("planning") == Blue
    ensures PriorityTone(priority) == PriorityTone("medium") == Gold
  {
  }

  /** The text of the status badge: the status with its first `_` made a space. */
  function StatusLabel(status: string): (text: string)
    ensures |text| == |status|
    ensures '_' !in status ==> text == status
  {
    ReplaceFirst(status, '_', ' ')
  }

  lemma OnHoldLabel()
    ensures StatusLabel("on_hold") == "on hold"
  {
    assert "on_hold" == "on" + ['_'] + "hold";
    ReplaceFirstAfter("on", '_', ' ', "hold");
  }

  /** A JavaScript string or number value is truthy: neither null, nor empty, nor zero. */
  predicate Truthy(s: Option<string>) { s.Some? && s.value != "" }

  /** What the card renders for one detail slot. */
  datatype Detail = LocationLine | DatesLine | BudgetLine | StrayText(text: string)

  /** The location line appears when the location is non-empty, the dates when both are. */
  function LocationDetail(p: Project): (d: Option<Detail>)
    ensures d.Some? <==> Truthy(p.location)
    ensures d.Some? ==> d.value == LocationLine
  {
    if Truthy(p.location) then Some(LocationLine) else None
  }

  function DatesDetail(p: Project): (d: Option<Detail>)
    ensures d.Some? <==> Truthy(p.startDate) && Truthy(p.endDate)
    ensures d.Some? ==> d.value == DatesLine
  {
    if Truthy(p.startDate) && Truthy(p.endDate) then Some(DatesLine) else None
  }

  /**
   * The budget slot as written (`budget && <line>`): a null budget renders nothing, but a zero
   * budget is a number, and React renders the number as the text "0".
   */
  function BudgetDetailAsWritten(p: Project): (slot: Option<Detail>)
    ensures slot.None? <==> p.budget.None?
    ensures slot == Some(StrayText("0")) <==> p.budget == Some(0)
  {
    match p.budget
    case None => None
    case Some(b) => if b == 0 then Some(StrayText("0")) else Some(BudgetLine)
  }

  lemma ZeroBudgetRendersZero(p: Project)
    requires p.budget == Some(0)
    ensures BudgetDetailAsWritten(p) == Some(StrayText("0"))
  {
  }

  /** The budget slot as intended: the line for a non-zero budget, nothing otherwise. */
  function BudgetDetail(p: Project): (d: Option<Detail>)
    ensures d.Some? <==> p.budget.Some? && p.budget.value != 0
    ensures d.Some? ==> d.value == BudgetLine
  {
    if p.budget.Some? && p.budget.value != 0 then Some(BudgetLine) else None
  }

  /** The intended slot differs from the written one only for a zero budget, and never shows text. */
  lemma BudgetDetailAgrees(p: Project)
    ensures p.budget != Some(0) ==> BudgetDetail(p) == BudgetDetailAsWritten(p)
    ensures BudgetDetail(p) == None || BudgetDetail(p) == Some(BudgetLine)
  {
  }
}
