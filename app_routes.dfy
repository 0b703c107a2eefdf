/**
 * The route table of the application: the guard in front of the dashboard shell, the reverse
 * redirect on the login page, the root redirect and the shell's child routes.
 */
module AppRoutes {
  import opened Common
  import opened Roles
  import AuthContext
  import Dashboard
  import Sidebar

  /** What a route element renders. */
  datatype Screen =
    | LoadingScreen
    | RedirectTo(path: string)
    | LoginPage
    | Shell(child: Option<string>)

  /** `ProtectedRoute`: decides on the loading flag and the resolved user alone. */
  function ProtectedRoute(isLoading: bool, user: Option<AuthContext.User>): (s: Screen)
    ensures isLoading ==> s == LoadingScreen
    ensures !isLoading && user.None? ==> s == RedirectTo("/login")
    ensures !isLoading && user.Some? ==> s == Shell(None)
  {
    if isLoading then LoadingScreen
    else if user.None? then RedirectTo("/login")
    else Shell(None)
  }

  /** The element of `/login`: back to the dashboard when a user is set, else the form. */
  function LoginRoute(user: Option<AuthContext.User>): (s: Screen)
    ensures s.RedirectTo? <==> user.Some?
    ensures s.RedirectTo? ==> s.path == "/dashboard"
    ensures user.None? ==> s == LoginPage
  {
    if user.Some? then RedirectTo("/dashboard") else LoginPage
  }

  /** The child routes of the protected shell. */
  const ChildRoutes: set<string> := {
    "/dashboard", "/dashboard/top-management", "/dashboard/project-owner",
    "/dashboard/project-manager", "/dashboard/project-officer", "/dashboard/admin",
    "/portfolio", "/decisions", "/issues", "/meetings", "/analytics", "/notifications", "/settings"
  }

  /** The screen for `path` in state `(isLoading, user)`. */
  function Route(path: string, isLoading: bool, user: Option<AuthContext.User>): (s: Screen)
    ensures path == "/" ==> s == RedirectTo("/dashboard")
    ensures path == "/login" ==> s == LoginRoute(user)
    ensures path != "/" && path != "/login" && s.Shell? ==>
      !isLoading && user.Some? && (s.child.Some? <==> path in ChildRoutes) && (s.child.Some? ==> s.child.value == path)
  {
    if path == "/login" then LoginRoute(user)
    else if path == "/" then RedirectTo("/dashboard")
    else
      match ProtectedRoute(isLoading, user)
      case Shell(_) => Shell(if path in ChildRoutes then Some(path) else None)
      case other => other
  }

  /** The guard and the login route never redirect in the same state, so they cannot bounce. */
  lemma NoRedirectLoop(isLoading: bool, user: Option<AuthContext.User>)
    ensures !(ProtectedRoute(isLoading, user).RedirectTo? && LoginRoute(user).RedirectTo?)
  {
  }

  /** Following redirects from any path settles after at most two of them. */
  lemma RedirectsSettle(path: string, isLoading: bool, user: Option<AuthContext.User>)
    ensures var s1 := Route(path, isLoading, user);
      s1.RedirectTo? ==>
        var s2 := Route(s1.path, isLoading, user);
        s2.RedirectTo? ==> !Route(s2.path, isLoading, user).RedirectTo?
  {
    assert "/dashboard" in ChildRoutes;
  }

  /** Every landing page of the dashboard redirect is a child route of the shell. */
  lemma LandingRoutesRegistered(r: Role)
    ensures Dashboard.LandingRoute(r) in ChildRoutes
  {
  }

  /**
   * From `/`, a signed-in user with a known role reaches the shell at `/dashboard`, whose page
   * then sends them on to their registered landing page.
   */
  lemma SignedInUserLands(user: AuthContext.User, r: Role)
    requires user.role == Some(Known(r))
    ensures Route("/", false, Some(user)) == RedirectTo("/dashboard")
    ensures Route("/dashboard", false, Some(user)) == Shell(Some("/dashboard"))
    ensures Dashboard.DashboardRedirect(Some(user)) == Some(Dashboard.LandingRoute(r))
    ensures Route(Dashboard.LandingRoute(r), false, Some(user)) == Shell(Some(Dashboard.LandingRoute(r)))
  {
    Dashboard.KnownRoleLandsOnOwnPage(user, r);
    Dashboard.LandingRoutesDistinct(r, r);
    LandingRoutesRegistered(r);
    assert "/dashboard" in ChildRoutes;
  }

  /** Three sidebar links have no child route: the shell renders no page for them. */
  lemma UnregisteredSidebarLinks(user: AuthContext.User)
    ensures Sidebar.ActionsItem.path !in ChildRoutes
    ensures Sidebar.DocumentsItem.path !in ChildRoutes
    ensures Sidebar.UserManagementItem.path !in ChildRoutes
    ensures Route(Sidebar.ActionsItem.path, false, Some(user)) == Shell(None)
  {
    var p := Sidebar.ActionsItem.path;
    forall q | q in ChildRoutes ensures Sidebar.PathKey(q) != Sidebar.PathKey(p) {
    }
  }

  /**
   * A live session whose profile could not be resolved counts as signed out: the provider holds
   * the session, yet the guard sends the visitor to the login page.
   */
  method ProfileMissingScenario(s: AuthContext.Session, roles: AuthContext.Query<seq<string>>)
    returns (hasSession: bool, guard: Screen)
    ensures hasSession && guard == RedirectTo("/login")
  {
    var provider := new AuthContext.AuthProvider();
    provider.OnInitialSession(Some(s));
    provider.CompleteResolution(0, AuthContext.Resolved(None, false), roles);
    hasSession := provider.session.Some?;
    guard := ProtectedRoute(provider.isLoading, provider.user);
  }
}
