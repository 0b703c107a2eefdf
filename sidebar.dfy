/**
 * The sidebar: the navigation entries each role sees, the loading placeholder and the role
 * line of the user panel.
 */
module Sidebar {
  import opened Common
  import opened Roles
  import opened Text
  import AuthContext

  datatype Icon = LayoutDashboard | FolderKanban | CheckCircle | AlertCircle | BarChart3 | Bell | ListTodo | FileText | Users

  datatype NavItem = NavItem(icon: Icon, caption: string, path: string)

  const DashboardItem := NavItem(LayoutDashboard, "Dashboard", "/dashboard")
  const PortfolioItem := NavItem(FolderKanban, "Portfolio", "/portfolio")
  const DecisionsItem := NavItem(CheckCircle, "Decisions", "/decisions")
  const IssuesItem := NavItem(AlertCircle, "Issues", "/issues")
  const AnalyticsItem := NavItem(BarChart3, "Analytics", "/analytics")
  const NotificationsItem := NavItem(Bell, "Notifications", "/notifications")
  const MeetingsItem := NavItem(Users, "Meetings", "/meetings")
  const ActionsItem := NavItem(ListTodo, "Actions", "/actions")
  const DocumentsItem := NavItem(FileText, "Documents", "/documents")
  const UserManagementItem := NavItem(Users, "User Management", "/user-management")

  /** The navigation table: the entries of each role, in the order the sidebar lists them. */
  function NavFor(role: Option<UserRole>): (items: seq<NavItem>)
    ensures |items| >= 2 <==> role.Some? && role.value.Known?
    ensures |items| >= 1 && items[0] == DashboardItem
  {
    match role
    case Some(Known(TopManagement)) =>
      [DashboardItem, PortfolioItem, DecisionsItem, IssuesItem, AnalyticsItem, NotificationsItem, MeetingsItem]
    case Some(Known(ProjectOwner)) =>
      [DashboardItem, PortfolioItem, DecisionsItem, IssuesItem, ActionsItem, DocumentsItem, MeetingsItem, NotificationsItem]
    case Some(Known(ProjectManager)) =>
      [DashboardItem, PortfolioItem, IssuesItem, ActionsItem, DocumentsItem, MeetingsItem, NotificationsItem]
    case Some(Known(ProjectOfficer)) =>
      [DashboardItem, PortfolioItem, ActionsItem, DocumentsItem, NotificationsItem]
    case Some(Known(SystemAdmin)) =>
      [DashboardItem, UserManagementItem]
    case _ => [DashboardItem]
  }

  /** The paths of the entries are pairwise distinct (they are the list's keys). */
  predicate PathsDistinct(items: seq<NavItem>) {
    forall i, j :: 0 <= i < j < |items| ==> items[i].path != items[j].path
  }

  /** A cheap fingerprint of a path; the sidebar's paths have pairwise different ones. */
  function PathKey(path: string): (int, char, char) {
    if |path| >= 3 then (|path|, path[1], path[2]) else (|path|, ' ', ' ')
  }

  /** Within the list of every role the paths are pairwise distinct. */
  lemma NavPathsDistinct(role: Option<UserRole>)
    ensures PathsDistinct(NavFor(role))
  {
    var items := NavFor(role);
    forall i, j | 0 <= i < j < |items| ensures items[i].path != items[j].path {
      assert PathKey(items[i].path) != PathKey(items[j].path);
    }
  }

  predicate HasPath(items: seq<NavItem>, path: string) {
    exists i :: 0 <= i < |items| && items[i].path == path
  }

  /**
   * `getNavItems`: starts the list with Dashboard and pushes the role's entries; a null
   * or unrecognised role matches no case of the switch and keeps Dashboard only.
   */
  method GetNavItems(role: Option<UserRole>) returns (items: seq<NavItem>)
    ensures items == NavFor(role)
    ensures |items| >= 1 && items[0] == DashboardItem
    ensures PathsDistinct(items)
  {
    items := [DashboardItem];
    if role.Some? && role.value.Known? {
      match role.value.role
      case TopManagement =>
        items := items + [PortfolioItem, DecisionsItem, IssuesItem, AnalyticsItem, NotificationsItem, MeetingsItem];
      case ProjectOwner =>
        items := items + [PortfolioItem, DecisionsItem, IssuesItem, ActionsItem, DocumentsItem, MeetingsItem, NotificationsItem];
      case ProjectManager =>
        items := items + [PortfolioItem, IssuesItem, ActionsItem, DocumentsItem, MeetingsItem, NotificationsItem];
      case ProjectOfficer =>
        items := items + [PortfolioItem, ActionsItem, DocumentsItem, NotificationsItem];
      case SystemAdmin =>
        items := items + [UserManagementItem];
    }
    NavPathsDistinct(role);
  }

  /** A null role and every string outside the enumeration give the Dashboard entry alone. */
  lemma NoRoleGivesDashboardOnly(role: Option<UserRole>)
    requires role.None? || role.value.Unknown?
    ensures NavFor(role) == [DashboardItem]
  {
  }

  /** The number of entries of each role. */
  lemma EntryCounts()
    ensures |NavFor(Some(Known(TopManagement)))| == 7
    ensures |NavFor(Some(Known(ProjectOwner)))| == 8
    ensures |NavFor(Some(Known(ProjectManager)))| == 7
    ensures |NavFor(Some(Known(ProjectOfficer)))| == 5
    ensures |NavFor(Some(Known(SystemAdmin)))| == 2
  {
  }

  /** User Management is listed for system_admin only. */
  lemma UserManagementOnlyForAdmin(role: Option<UserRole>)
    ensures HasPath(NavFor(role), "/user-management") <==> Is(role, SystemAdmin)
  {
    if HasPath(NavFor(role), "/user-management") {
      var i :| 0 <= i < |NavFor(role)| && NavFor(role)[i].path == "/user-management";
    }
    if Is(role, SystemAdmin) {
      assert NavFor(role)[1].path == "/user-management";
    }
  }

  /** Analytics is listed for top_management only. */
  lemma AnalyticsOnlyForTopManagement(role: Option<UserRole>)
    ensures HasPath(NavFor(role), "/analytics") <==> Is(role, TopManagement)
  {
    if HasPath(NavFor(role), "/analytics") {
      var i :| 0 <= i < |NavFor(role)| && NavFor(role)[i].path == "/analytics";
    }
    if Is(role, TopManagement) {
      assert NavFor(role)[4].path == "/analytics";
    }
  }

  /** Decisions is listed for top_management and project_owner only. */
  lemma DecisionsOnlyForGovernance(role: Option<UserRole>)
    ensures HasPath(NavFor(role), "/decisions") <==> Is(role, TopManagement) || Is(role, ProjectOwner)
  {
    if HasPath(NavFor(role), "/decisions") {
      var i :| 0 <= i < |NavFor(role)| && NavFor(role)[i].path == "/decisions";
    }
    if Is(role, TopManagement) || Is(role, ProjectOwner) {
      assert NavFor(role)[2].path == "/decisions";
    }
  }

  /** What the navigation area shows: five placeholder rows while loading, else the links. */
  datatype NavArea = Placeholders(rows: nat) | Links(items: seq<NavItem>)

  function NavAreaFor(isLoading: bool, role: Option<UserRole>): (a: NavArea)
    ensures isLoading ==> a == Placeholders(5)
    ensures !isLoading ==> a.Links? && |a.items| >= 1 && a.items[0] == DashboardItem
  {
    if isLoading then Placeholders(5) else Links(NavFor(role))
  }

  /**
   * The role line of the user panel: the role string with its first `_` made a space, or
   * "guest" when the role is null (or the empty string, which is falsy).
   */
  function RoleLabel(role: Option<UserRole>): (line: string)
    ensures role.None? ==> line == "guest"
    ensures role.Some? && AsString(role.value) != "" ==> line == ReplaceFirst(AsString(role.value), '_', ' ')
  {
    if role.None? || AsString(role.value) == "" then "guest" else ReplaceFirst(AsString(role.value), '_', ' ')
  }

  /** Each role's wire name as the words around its one underscore. */
  function NameWords(r: Role): (words: (string, string)) {
    match r
    case TopManagement => ("top", "management")
    case ProjectOwner => ("project", "owner")
    case ProjectManager => ("project", "manager")
    case ProjectOfficer => ("project", "officer")
    case SystemAdmin => ("system", "admin")
  }

  lemma NameIsWordsAroundUnderscore(r: Role)
    ensures AsString(Known(r)) == NameWords(r).0 + ['_'] + NameWords(r).1
    ensures '_' !in NameWords(r).0
  {
  }

  /** A known role's line is its two words separated by a space ("project manager"). */
  lemma KnownRoleLabel(r: Role)
    ensures RoleLabel(Some(Known(r))) == NameWords(r).0 + [' '] + NameWords(r).1
  {
    NameIsWordsAroundUnderscore(r);
    ReplaceFirstAfter(NameWords(r).0, '_', ' ', NameWords(r).1);
  }

  /** The user panel (name, email, role line), shown when the sidebar is open and a user is set. */
  datatype Panel = Panel(name: string, email: string, roleLine: string)

  function UserPanel(isOpen: bool, user: Option<AuthContext.User>): (p: Option<Panel>)
    ensures p.Some? <==> isOpen && user.Some?
    ensures p.Some? ==> p.value == Panel(user.value.name, user.value.email, RoleLabel(user.value.role))
  {
    if isOpen && user.Some? then Some(Panel(user.value.name, user.value.email, RoleLabel(user.value.role))) else None
  }
}
