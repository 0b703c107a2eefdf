/**
 * The generic dashboard page: the redirect to a role's own landing page and the page title.
 */
module Dashboard {
  import opened Common
  import opened Roles
  import AuthContext

  /** The `roleRoutes` table: the landing page of each role. */
  function LandingRoute(r: Role): (path: string)
    ensures |path| > 11 && path[..11] == "/dashboard/"
  {
    match r
    case TopManagement => "/dashboard/top-management"
    case ProjectOwner => "/dashboard/project-owner"
    case ProjectManager => "/dashboard/project-manager"
    case ProjectOfficer => "/dashboard/project-officer"
    case SystemAdmin => "/dashboard/admin"
  }

  /** The path the page navigates to when it sees `user`, or nothing when it does not navigate. */
  function DashboardRedirect(user: Option<AuthContext.User>): (target: Option<string>)
    ensures target.Some? <==> user.Some? && user.value.role.Some? && AsString(user.value.role.value) != ""
    ensures target.Some? && user.value.role.value.Known? ==> target.value == LandingRoute(user.value.role.value.role)
    ensures target.Some? && user.value.role.value.Unknown? ==> target.value == "/dashboard"
  {
    if user.None? || user.value.role.None? || AsString(user.value.role.value) == "" then None
    else
      match user.value.role.value
      case Known(r) => Some(LandingRoute(r))
      case Unknown(_) => Some("/dashboard")
  }

  /** The five landing pages are pairwise different and all lie under `/dashboard/`. */
  lemma LandingRoutesDistinct(r1: Role, r2: Role)
    ensures LandingRoute(r1) == LandingRoute(r2) <==> r1 == r2
    ensures "/dashboard/" <= LandingRoute(r1)
    ensures LandingRoute(r1) != "/dashboard"
  {
    var p1, p2 := LandingRoute(r1), LandingRoute(r2);
    if r1 != r2 {
      assert (|p1|, p1[|p1| - 3]) != (|p2|, p2[|p2| - 3]);
    }
    assert |p1| > |"/dashboard"|;
  }

  /** The title switch: one title per role and "Dashboard" for a null or unknown role. */
  function RoleTitle(role: Option<UserRole>): (title: string)
    ensures role.None? || role.value.Unknown? ==> title == "Dashboard"
  {
    match role
    case Some(Known(TopManagement)) => "Strategic Overview"
    case Some(Known(ProjectOwner)) => "Portfolio Dashboard"
    case Some(Known(ProjectManager)) => "Project Management"
    case Some(Known(ProjectOfficer)) => "Task Management"
    case Some(Known(SystemAdmin)) => "System Administration"
    case _ => "Dashboard"
  }

  /** The heading each role-specific landing page shows, keyed by its path. */
  function PageHeading(path: string): Option<string> {
    if path == "/dashboard/top-management" then Some("Strategic Overview")
    else if path == "/dashboard/project-owner" then Some("Portfolio Dashboard")
    else if path == "/dashboard/project-manager" then Some("Project Management")
    else if path == "/dashboard/project-officer" then Some("Task Management")
    else if path == "/dashboard/admin" then Some("System Administration")
    else None
  }

  /** The title shown for a role is the heading of the page that role is sent to. */
  lemma TitleMatchesLandingHeading(r: Role)
    ensures PageHeading(LandingRoute(r)) == Some(RoleTitle(Some(Known(r))))
  {
  }

  /** A user with a known role is redirected to a page headed with that role's title. */
  lemma KnownRoleLandsOnOwnPage(user: AuthContext.User, r: Role)
    requires user.role == Some(Known(r))
    ensures DashboardRedirect(Some(user)) == Some(LandingRoute(r))
    ensures PageHeading(DashboardRedirect(Some(user)).value) == Some(RoleTitle(user.role))
  {
    NamesDistinct(r, r);
    TitleMatchesLandingHeading(r);
  }
}
