# Dashboard access and page rules

This project models the decision rules of a role-based project-governance dashboard: a React
client on a hosted authentication service and database, plus one server function that creates
users. It covers the following:

- which navigation entries each of the five `app_role` values sees;
- where a signed-in user lands and under which title;
- how the route guard and the login route decide between a loading screen, a redirect and the
  page;
- how the session store resolves and clears the signed-in user as authentication events arrive;
- the permission predicates (who may edit or create projects, create actions, delete
  documents, verify an action);
- the status chain of an action;
- the search filters, tabs and counters of the Projects, Actions, Documents, User Management,
  Issues, Decisions, Meetings and Notifications pages;
- the string helpers behind initials and role labels;
- the step sequence of the `create-user` function, which stops at the first error.

Every call into the hosted services is a parameter that holds its outcome. A handler returns the
trace of its visible effects: the busy flag, toasts, navigations, requests and calls of
callbacks. State that a component updates in place is a class with `modifies` clauses:

- the session store;
- the login form;
- the Projects, Actions, Documents and User Management pages;
- the project dialog.

Rules that are conditional expressions are functions. A user's role is `Option<UserRole>`. It
is absent for a null role, `Known(r)` for one of the five enumeration values, and `Unknown(s)`
for any other string the role column holds.

Modules follow the source files. `Common`, `Roles`, `Text`, `Seqs` and `Ui` are shared, and
`Seqs` and `Text` model `Array.prototype.filter`, `includes`, `toLowerCase`/`toUpperCase`,
`split`/`join` and the first-occurrence `replace`.

## Model

| member | source | states |
|---|---|---|
| Roles.NamesDistinct | src/integrations/supabase/types.ts:580-585 | the five `app_role` strings are pairwise distinct and non-empty |
| Roles.ParseName | src/integrations/supabase/types.ts:713-719 | reading a role's wire string back gives the role |
| Roles.FromString | src/contexts/AuthContext.tsx:49 | the string read from the role column is classified as its known role or kept as an unknown string, without loss |
| Roles.FromStringText | src/contexts/AuthContext.tsx:49 | classifying the string of a role value gives back that value |
| Sidebar.GetNavItems | src/components/layout/Sidebar.tsx:26-88 | the list starts with Dashboard, gets the role's entries pushed onto it, equals the navigation table, and has pairwise distinct paths |
| Sidebar.NavFor | src/components/layout/Sidebar.tsx:35-84 | the list starts with Dashboard, and has more than that one entry if and only if the role is one of the five known roles |
| Sidebar.NavPathsDistinct | src/components/layout/Sidebar.tsx:26-88 | for every role, including null and unknown, the paths (the list keys) are pairwise distinct |
| Sidebar.NoRoleGivesDashboardOnly | src/components/layout/Sidebar.tsx:34-85 | a null role and every string outside the enumeration give exactly `[Dashboard]` |
| Sidebar.EntryCounts | src/components/layout/Sidebar.tsx:35-84 | the lists have 7, 8, 7, 5 and 2 entries for the five roles |
| Sidebar.UserManagementOnlyForAdmin | src/components/layout/Sidebar.tsx:78-84 | User Management is listed if and only if the role is system_admin |
| Sidebar.AnalyticsOnlyForTopManagement | src/components/layout/Sidebar.tsx:35-44 | Analytics is listed if and only if the role is top_management |
| Sidebar.DecisionsOnlyForGovernance | src/components/layout/Sidebar.tsx:35-56 | Decisions is listed if and only if the role is top_management or project_owner |
| Sidebar.NavAreaFor | src/components/layout/Sidebar.tsx:143-164 | while loading, five placeholder rows; otherwise links that start with Dashboard |
| Sidebar.RoleLabel | src/components/layout/Sidebar.tsx:176 | "guest" for a null (or empty) role, otherwise the role string with its first `_` made a space |
| Sidebar.KnownRoleLabel | src/components/layout/Sidebar.tsx:176 | each known role reads as its two words separated by one space ("project manager") |
| Sidebar.UserPanel | src/components/layout/Sidebar.tsx:168-180 | the panel is shown if and only if the sidebar is open and a user is set, with the user's name, email and role line |
| Dashboard.DashboardRedirect | src/pages/Dashboard.tsx:33-44 | the page navigates if and only if the user's role is non-null and non-empty; a known role goes to its landing page and any other string to `/dashboard` |
| Dashboard.LandingRoute | src/pages/Dashboard.tsx:35-41 | every landing path lies under `/dashboard/` |
| Dashboard.LandingRoutesDistinct | src/pages/Dashboard.tsx:35-41 | the five landing paths are pairwise distinct, all under `/dashboard/`, none equal to `/dashboard` |
| Dashboard.RoleTitle | src/pages/Dashboard.tsx:69-84 | a null or unknown role is titled "Dashboard" |
| Dashboard.TitleMatchesLandingHeading | src/pages/Dashboard.tsx:71-80 | the title of each role is the heading of the page that role lands on |
| Dashboard.KnownRoleLandsOnOwnPage | src/pages/Dashboard.tsx:33-44 | a user with a known role is sent to a page headed with that role's title |
| AppRoutes.ProtectedRoute | src/App.tsx:26-38 | loading shows the placeholder, no user redirects to `/login`, otherwise the shell renders |
| AppRoutes.LoginRoute | src/App.tsx:45 | `/login` redirects to `/dashboard` if and only if a user is set, and otherwise shows the form |
| AppRoutes.Route | src/App.tsx:44-73 | `/` redirects to `/dashboard`; inside the shell a child page renders if and only if the path is a registered child route |
| AppRoutes.NoRedirectLoop | src/App.tsx:33-35 | the guard and the login route never both redirect in one state |
| AppRoutes.RedirectsSettle | src/App.tsx:44-73 | from any path, redirects settle after at most two |
| AppRoutes.LandingRoutesRegistered | src/App.tsx:58-62 | every landing path of the dashboard redirect is a child route of the shell |
| AppRoutes.SignedInUserLands | src/App.tsx:47-62 | a signed-in user with a known role goes from `/` to `/dashboard` and on to a registered landing page |
| AppRoutes.UnregisteredSidebarLinks | src/App.tsx:57-69 | `/actions`, `/documents` and `/user-management` are not child routes, so the shell shows no page for them |
| AppRoutes.ProfileMissingScenario | src/contexts/AuthContext.tsx:85-96 | a live session whose profile is missing leaves the session set but the guard redirecting to `/login` |
| AuthContext.FirstRole | src/contexts/AuthContext.tsx:49 | a role is present if and only if there is at least one role row, and it is the first row's string |
| AuthContext.FetchUserProfile | src/contexts/AuthContext.tsx:31-64 | a user results if and only if neither query threw and the profile exists; it carries the id, the profile's email and name, and the first role if any |
| AuthContext.MissingProfileGivesNoUser | src/contexts/AuthContext.tsx:51-59 | with no profile row there is no user, whatever the role rows |
| AuthContext.RoleQueryFailureGivesNullRole | src/contexts/AuthContext.tsx:45-49 | a failed role query or an empty role list gives a user with a null role, not an error |
| AuthContext.Login | src/contexts/AuthContext.tsx:146-158 | `login` resolves with no error if and only if the sign-in succeeded, and otherwise with the error (represented by its message); it never rejects |
| AuthContext.Signup | src/contexts/AuthContext.tsx:101-144 | sign-up, the profile insert and the role insert run in order; the first failure ends the chain and is returned; no error if and only if all three succeed |
| AuthContext.AuthProvider.constructor | src/contexts/AuthContext.tsx:26-28 | no user and no session, loading, nothing pending |
| AuthContext.AuthProvider.OnAuthStateChange | src/contexts/AuthContext.tsx:68-82 | the session is stored and loading ends; a session schedules a profile resolution, no session clears the user |
| AuthContext.AuthProvider.OnInitialSession | src/contexts/AuthContext.tsx:85-96 | the session is stored; a session schedules a resolution that also clears loading, no session ends loading at once |
| AuthContext.AuthProvider.CompleteResolution | src/contexts/AuthContext.tsx:73-76 | one scheduled resolution sets the user to the fetched profile, leaves the session, and loading is over; the invariant (no user while loading) is kept |
| AuthContext.AuthProvider.Logout | src/contexts/AuthContext.tsx:160-162 | logout only asks the service to sign out |
| LoginPage.EmptyFieldSendsNothing | src/components/auth/LoginPage.tsx:22-25 | an empty email or password sends no request and never raises the busy flag |
| LoginPage.BusyAroundCall | src/components/auth/LoginPage.tsx:27-36 | with both fields filled, the busy flag is raised before the request and lowered by the last effect |
| LoginPage.RejectedLoginReportsSuccess | src/components/auth/LoginPage.tsx:29-31 | as written, a rejected sign-in still shows the success toast and navigates to `/dashboard` |
| LoginPage.RejectedLoginBouncesToForm | src/App.tsx:33-45 | after a rejected sign-in no user is set, so the guard sends that navigation straight back to `/login`, where the form shows: the dashboard never appears |
| LoginPage.CheckedReportsSuccessIffSignedIn | src/components/auth/LoginPage.tsx:19-37 | with the result checked, success is reported and `/dashboard` navigated to if and only if the fields are filled and the sign-in succeeded |
| LoginPage.LoginForm.constructor | src/components/auth/LoginPage.tsx:12-15 | empty fields, role project_manager, not busy |
| LoginPage.LoginForm.HandleSubmit | src/components/auth/LoginPage.tsx:19-37 | the submit has the effects of the page as written and keeps the fields; after a request the busy flag is down again |
| TopNav.GetInitials | src/components/layout/TopNav.tsx:39-46 | at most two characters, none of them a lower-case letter |
| TopNav.InitialsAreWordStarts | src/components/layout/TopNav.tsx:39-46 | the initials are the first two characters that start a word, upper-cased |
| TopNav.FirstsOfSplit | src/components/layout/TopNav.tsx:40-43 | the first characters of the pieces when split on spaces are the word-starting characters |
| TopNav.SingleWordInitial | src/components/layout/TopNav.tsx:39-46 | a name without a space gives its first letter, upper-cased |
| TopNav.TwoWordInitials | src/components/layout/TopNav.tsx:39-46 | two words separated by one space give their two first letters, upper-cased |
| TopNav.KwameMensahInitials | src/components/layout/TopNav.tsx:39-46 | "Kwame Mensah" gives "KM" |
| TopNav.AvatarText | src/components/layout/TopNav.tsx:96 | "U" without a user, the initials of the name otherwise |
| TopNav.NullRoleCrashesRoleLine | src/components/layout/TopNav.tsx:110 | as written, a signed-in user whose profile has no role row makes the role line fail |
| TopNav.RoleLineAsWritten | src/components/layout/TopNav.tsx:110 | as written, the line is blank if and only if there is no user, and fails if and only if a user is set whose role is null |
| TopNav.RoleLineChecked | src/components/layout/Sidebar.tsx:176 | the guarded line is blank if and only if there is no user, and never fails |
| TopNav.RoleLineCheckedAgrees | src/components/layout/TopNav.tsx:110 | the guarded role line never fails, is blank if and only if there is no user, and agrees with the written line wherever that one renders |
| TopNav.LogoutNavigatesWhileSignedIn | src/components/layout/TopNav.tsx:33-37 | sign-out is started first and `/login` is navigated to before the user is cleared, where the login route sends a signed-in visitor back |
| TopNav.LogoutThenSignedOutEvent | src/components/layout/TopNav.tsx:33-37 | before the signed-out event the login route redirects to the dashboard; after it the form shows |
| TopNav.LogoutEffects | src/components/layout/TopNav.tsx:33-37 | logging out sends the sign-out request first, shows a success toast and ends by navigating to `/login` |
| ProjectCard.CanEditIffEditorRole | src/components/projects/ProjectCard.tsx:43-45 | `canEdit` holds if and only if the role is project_owner, project_manager or system_admin |
| ProjectCard.CanEdit | src/components/projects/ProjectCard.tsx:43-45 | only a known role may edit |
| ProjectCard.StatusColor | src/components/projects/ProjectCard.tsx:28-34 | the table has an entry for exactly planning, active, on_hold, completed and cancelled |
| ProjectCard.PriorityColor | src/components/projects/ProjectCard.tsx:36-41 | the table has an entry for exactly low, medium, high and critical |
| ProjectCard.StatusTone | src/components/projects/ProjectCard.tsx:71 | the status badge uses the status's entry, or the `planning` entry when there is none |
| ProjectCard.PriorityTone | src/components/projects/ProjectCard.tsx:74 | the priority badge uses the priority's entry, or the `medium` entry when there is none |
| ProjectCard.UnknownStatusLooksPlanning | src/components/projects/ProjectCard.tsx:28-41 | a status outside the table looks like `planning`, a priority outside it like `medium` |
| ProjectCard.StatusLabel | src/components/projects/ProjectCard.tsx:72 | the label has the status's length and is the status itself when it has no `_` |
| ProjectCard.OnHoldLabel | src/components/projects/ProjectCard.tsx:72 | `on_hold` reads "on hold" |
| ProjectCard.LocationDetail | src/components/projects/ProjectCard.tsx:90 | the location line appears if and only if the location is non-empty |
| ProjectCard.DatesDetail | src/components/projects/ProjectCard.tsx:97 | the date line appears if and only if both dates are non-empty |
| ProjectCard.ZeroBudgetRendersZero | src/components/projects/ProjectCard.tsx:106 | as written, a zero budget renders the text "0" |
| ProjectCard.BudgetDetailAsWritten | src/components/projects/ProjectCard.tsx:106 | as written, the slot is empty if and only if the budget is null, and shows the stray text "0" if and only if the budget is zero |
| ProjectCard.BudgetDetail | src/components/projects/ProjectCard.tsx:106 | the budget line appears if and only if the budget is non-null and non-zero |
| ProjectCard.BudgetDetailAgrees | src/components/projects/ProjectCard.tsx:106 | the intended slot agrees with the written one except for a zero budget, and never shows stray text |
| Projects.FilterProjects | src/pages/Projects.tsx:76-81 | the list is an order-preserving subsequence holding exactly the projects that match the term (title or description) and the status filter, each as many times as the input holds it |
| Projects.ProjectMatches | src/pages/Projects.tsx:77-79 | an empty term with `all` matches every project, and a status filter other than `all` admits only that status |
| Projects.NullDescriptionLeavesTitle | src/pages/Projects.tsx:78 | a null description never matches but leaves a title match standing |
| Projects.EmptySearchListsAll | src/pages/Projects.tsx:76-81 | an empty term with `all` lists every project in order |
| Projects.StatusFilterSelectsStatus | src/pages/Projects.tsx:79 | a status filter other than `all` lists only projects of that status |
| Projects.CreateProjectIffEdit | src/pages/Projects.tsx:83-85 | `canCreateProject` holds if and only if `canEdit` does, namely for the three editor roles |
| Projects.CanCreateProject | src/pages/Projects.tsx:83-85 | only a known role may create projects |
| Projects.ProjectsPage.constructor | src/pages/Projects.tsx:33-38 | no projects, loading, empty term, `all`, dialog closed, no project selected |
| Projects.ProjectsPage.Visible | src/pages/Projects.tsx:76 | the cards shown are a subsequence of the loaded projects |
| Projects.ProjectsPage.FetchProjects | src/pages/Projects.tsx:44-59 | the rows replace the list (null counts as no rows), an error keeps it and shows a toast, and loading ends |
| Projects.ProjectsPage.HandleCreateProject | src/pages/Projects.tsx:61-64 | no project is selected and the dialog opens |
| Projects.ProjectsPage.HandleEditProject | src/pages/Projects.tsx:66-69 | the given project is selected and the dialog opens |
| Projects.ProjectsPage.HandleProjectSaved | src/pages/Projects.tsx:71-74 | the list is read again and the dialog closes |
| ProjectDialog.DefaultForm | src/components/projects/ProjectDialog.tsx:52-70 | no id, empty title, status planning, priority medium, budget and completion 0, owner the user's id or empty |
| ProjectDialog.SubmitPlan | src/components/projects/ProjectDialog.tsx:77-103 | no write if and only if title or owner is missing; an update by id if and only if the project has an id; an insert otherwise, with the current user as owner |
| ProjectDialog.SubmitEffects | src/components/projects/ProjectDialog.tsx:72-112 | a request is sent if and only if a write is planned, and success is reported if and only if the planned write succeeded |
| ProjectDialog.FailureText | src/components/projects/ProjectDialog.tsx:106-108 | a failure shows the error's message, or the fixed text when the message is empty |
| ProjectDialog.OnSaveOnlyAfterSavedWrite | src/components/projects/ProjectDialog.tsx:72-112 | `onSave` runs if and only if the fields are present and the write succeeded; a request is sent if and only if the fields are present; the busy flag is raised first and lowered last |
| ProjectDialog.DialogTitle | src/components/projects/ProjectDialog.tsx:119 | "Edit Project" whenever a project is given, "Create New Project" otherwise |
| ProjectDialog.EditTitledButInserted | src/components/projects/ProjectDialog.tsx:82-119 | a given project without an id is titled as edited but is inserted as a new row |
| ProjectDialog.ProjectForm.constructor | src/components/projects/ProjectDialog.tsx:38-50 | the form holds the defaults for the user and is not busy |
| ProjectDialog.ProjectForm.Reset | src/components/projects/ProjectDialog.tsx:52-70 | the form becomes the given project, or the defaults without one |
| ProjectDialog.ProjectForm.HandleSubmit | src/components/projects/ProjectDialog.tsx:72-112 | the submit has the effects of the planned write and its outcome, and ends with the busy flag down |
| Actions.BuildStatusUpdate | src/pages/Actions.tsx:112-115 | the update carries the new status, and a completion date (the given instant) if and only if the new status is `completed` |
| Actions.NextStatusIsOneStep | src/pages/Actions.tsx:316-341 | every offered transition moves exactly one step along pending, in-progress, completed, verified; verified and other statuses offer none |
| Actions.NextStatus | src/pages/Actions.tsx:316-341 | a next status is offered if and only if the action is pending, in progress, or completed for a role other than project_officer; it always differs from the current status |
| Actions.VerifyGate | src/pages/Actions.tsx:334 | verify is offered for a completed action if and only if the role is not project_officer, a null role included |
| Actions.ChainFromPending | src/pages/Actions.tsx:316-341 | from pending the buttons reach verified in three steps, and an officer stops at completed |
| Actions.ColorSeparatesSharedIcons | src/pages/Actions.tsx:132-150 | statuses that share an icon get different colours; pending falls to the default colour |
| Actions.IconFor | src/pages/Actions.tsx:132-140 | completed and verified share the check icon, overdue gets the alert icon, every other status the clock |
| Actions.ColorFor | src/pages/Actions.tsx:142-150 | the muted default colour is used if and only if the status is not completed, verified, in progress or overdue |
| Actions.SameRolesCreateAndEdit | src/pages/Actions.tsx:163-165 | `canCreateAction` holds for exactly the roles that may create and edit projects |
| Actions.CanCreateAction | src/pages/Actions.tsx:163-165 | only a known role may create actions, never top_management or project_officer |
| Actions.SearchActions | src/pages/Actions.tsx:152-154 | the search keeps exactly the actions whose title contains the query ignoring case, in order, each as many times as the input holds it |
| Actions.MyActions | src/pages/Actions.tsx:354 | the tab holds exactly the shown actions assigned to the user, in order, each as many times as the input holds it, and nothing without a user |
| Actions.AssignedTo | src/pages/Actions.tsx:354 | an action is on the "my actions" tab only when a user is signed in |
| Actions.OverdueActions | src/pages/Actions.tsx:384 | the tab holds exactly the shown actions due before now and neither completed nor verified, in order, each as many times as the input holds it |
| Actions.InvalidDueDateNeverOverdue | src/pages/Actions.tsx:384 | an action whose due date does not parse is never overdue |
| Actions.Overdue | src/pages/Actions.tsx:384 | an overdue action has a valid due date and is neither completed nor verified; one due now or later is not overdue |
| Actions.TabsWithinActions | src/pages/Actions.tsx:152-154 | both tabs are order-preserving subsequences of the loaded actions |
| Actions.CountStatus | src/pages/Actions.tsx:156-161 | a status counter is the number of actions with that status, and so at most the total |
| Actions.StatsWithinTotal | src/pages/Actions.tsx:156-161 | pending plus in-progress plus completed is at most the total |
| Actions.ActionsPage.constructor | src/pages/Actions.tsx:44-56 | no actions, loading, empty query, dialog closed, the empty form with priority medium |
| Actions.ActionsPage.FetchActions | src/pages/Actions.tsx:62-77 | the rows replace the list (null counts as no rows), an error keeps it and shows a toast, and loading ends |
| Actions.ActionsPage.HandleCreateAction | src/pages/Actions.tsx:79-108 | a missing title, due date or assignee stops at a toast; otherwise the form is inserted with the user as owner, and only a successful insert resets the form, closes the dialog and reloads |
| Actions.ActionsPage.HandleUpdateStatus | src/pages/Actions.tsx:110-130 | one update of the action with its new status, and completion date exactly for `completed`; a reload follows if and only if it succeeded |
| Documents.UploadRow | src/pages/Documents.tsx:81-87 | the inserted row is the form plus the placeholder path, type `pdf`, size 0 and the uploader's id |
| Documents.FilterDocuments | src/pages/Documents.tsx:123-127 | the list is an order-preserving subsequence holding exactly the documents whose title matches and whose category is chosen, each as many times as the input holds it |
| Documents.EmptySearchListsAll | src/pages/Documents.tsx:123-127 | an empty query with `all` lists every document in order |
| Documents.DocumentMatches | src/pages/Documents.tsx:123-127 | an empty query with `all` matches every document, and a chosen category admits only documents of that category |
| Documents.CanDelete | src/pages/Documents.tsx:309 | nothing can be deleted without a signed-in user |
| Documents.DeleteRights | src/pages/Documents.tsx:309 | delete is offered to nobody without a user, to every system administrator, and otherwise if and only if the user uploaded the document |
| Documents.CountSince | src/pages/Documents.tsx:139-143 | this week's counter is the number of documents created after the instant a week ago, and so at most the total |
| Documents.CountCategory | src/pages/Documents.tsx:144-146 | a category counter is the number of documents of that category, and so at most the total |
| Documents.ReportsAndEvidenceWithinTotal | src/pages/Documents.tsx:144-145 | reports plus evidence is at most the total |
| Documents.CategoryTabMatchesCounter | src/pages/Documents.tsx:123-146 | the filter set to one category lists as many documents as that category's counter |
| Documents.DocumentsPage.constructor | src/pages/Documents.tsx:40-50 | no documents, loading, empty query, `all`, dialog closed, the empty form with category general |
| Documents.DocumentsPage.FetchDocuments | src/pages/Documents.tsx:56-71 | the rows replace the list (null counts as no rows), an error keeps it and shows a toast, and loading ends |
| Documents.DocumentsPage.HandleUpload | src/pages/Documents.tsx:73-104 | an empty title stops at a toast; otherwise the row is inserted, and only a successful insert resets the form, closes the dialog and reloads |
| Documents.DocumentsPage.HandleDelete | src/pages/Documents.tsx:106-121 | one delete by id; a reload follows if and only if it succeeded |
| UserManagement.FilterUsers | src/pages/UserManagement.tsx:96-103 | the list is an order-preserving subsequence holding exactly the users whose name or email matches and who pass both filters, each as many times as the input holds it |
| UserManagement.UserMatches | src/pages/UserManagement.tsx:96-103 | an empty query with both filters `all` matches every user, and each filter other than `all` admits only its value |
| UserManagement.EmptySearchListsAll | src/pages/UserManagement.tsx:96-103 | an empty query with both filters `all` lists every user in order |
| UserManagement.RoleOptionsAreRoleMapKeys | src/pages/UserManagement.tsx:173-176 | every offered role is a key of the function's role map, and System Admin is a key but not offered |
| UserManagement.DummyUsersUseOptions | src/pages/UserManagement.tsx:33-79 | every user of the table has an offered role and status |
| UserManagement.UserManagementPage.constructor | src/pages/UserManagement.tsx:82-94 | empty query, both filters `all`, dialog closed, the empty form with country Ghana and status Active |
| UserManagement.UserManagementPage.Shown | src/pages/UserManagement.tsx:96 | the rows shown are a subsequence of the fixed table |
| UserManagement.UserManagementPage.HandleAddUser | src/pages/UserManagement.tsx:105-116 | the form resets and the dialog closes; the filters and the rows shown do not change |
| CreateUser.RoleMap | supabase/functions/create-user/index.ts:85-91 | a display name maps to a role whose display name it is |
| CreateUser.RoleMapIsBijective | supabase/functions/create-user/index.ts:85-91 | every role has its display name in the map, and different keys give different roles |
| CreateUser.DbRole | supabase/functions/create-user/index.ts:93 | a key gives its enumeration string; any other string passes through unchanged |
| CreateUser.DbRoleIsEnumValue | supabase/functions/create-user/index.ts:85-93 | a display name becomes a wire string that reads back as the same role |
| CreateUser.OrNull | supabase/functions/create-user/index.ts:73-74 | a missing or empty phone or department is stored as null, any other value as given |
| CreateUser.StepsRun | supabase/functions/create-user/index.ts:46-106 | between one and four steps run, the failing step being the last |
| CreateUser.FirstError | supabase/functions/create-user/index.ts:46-144 | there is no error if and only if the auth user was created with a user, both inserts succeeded and the mail call did not throw; an auth error is reported as is |
| CreateUser.Handle | supabase/functions/create-user/index.ts:18-174 | OPTIONS gets the bare CORS answer; otherwise the steps run in order up to the first failure, which gives 500 with its message; success gives 200 with the auth user's id and email, the name and the enumeration role |
| CreateUser.SuccessIffAllWritesSucceed | supabase/functions/create-user/index.ts:55-144 | a request succeeds if and only if the three writes succeed and the mail call does not throw, and then all four steps ran |
| CreateUser.NoRollback | supabase/functions/create-user/index.ts:77-80 | a failed profile insert leaves the auth user created: its creation is among the calls made |
| Issues.IconFor | src/pages/Issues.tsx:89-95 | critical and high get their own icons, every other severity the default |
| Issues.ColorFor | src/pages/Issues.tsx:97-103 | critical and high get their own colours, every other severity the default |
| Issues.IconAndColorAgree | src/pages/Issues.tsx:89-103 | an issue gets the default icon if and only if it gets the default colour |
| Issues.TabsOf | src/pages/Issues.tsx:237-240 | each tab label counts exactly the list its tab renders; each list is an order-preserving subsequence of the issues and holds exactly the issues with the tab's property (critical, escalated, overdue), each as many times as the input holds it |
| Issues.TabLabelsCountMatchingIssues | src/pages/Issues.tsx:237-240 | each tab label is the number of issues that are critical, escalated or overdue respectively |
| Issues.StatsOf | src/pages/Issues.tsx:105-110 | the critical, high and in-progress counters are the numbers of issues with that severity or status; critical plus high is at most the total, and the critical counter equals the critical tab's label |
| Issues.EscalateAgainMatchesEscalatedTab | src/pages/Issues.tsx:303-304 | "Escalate again" is offered on exactly the issues of the escalated tab |
| Issues.MissingOverdueIsNotOverdue | src/pages/Issues.tsx:28-41 | an issue without the `overdue` field is not overdue |
| Issues.FixedListCounts | src/pages/Issues.tsx:27-87 | the fixed list has 2 critical, 1 high, 1 in progress, 2 escalated and 1 overdue |
| Decisions.IconFor | src/pages/Decisions.tsx:69-76 | the default icon is used if and only if the status is not approved, pending or overdue |
| Decisions.ColorFor | src/pages/Decisions.tsx:78-85 | the default colour is used if and only if the status is not approved, pending or overdue |
| Decisions.IconAndColorAgree | src/pages/Decisions.tsx:69-85 | two statuses share an icon if and only if they share a colour |
| Decisions.WithStatus | src/pages/Decisions.tsx:282 | a status tab is an order-preserving subsequence holding exactly the decisions of that status, each as many times as the input holds it; its length is the number of positions with that status |
| Decisions.ViewOf | src/pages/Decisions.tsx:87-92 | each status counter equals the length of its tab's list, and pending plus approved plus overdue is at most the total |
| Decisions.SearchIsIgnored | src/pages/Decisions.tsx:221 | the search box changes nothing the page shows |
| Decisions.CardOf | src/pages/Decisions.tsx:257-272 | "Send reminder" if and only if the decision is pending; the decided line if and only if a decided date is set |
| Decisions.RemindersArePendingTab | src/pages/Decisions.tsx:270 | the cards that offer a reminder are exactly those on the pending tab |
| Decisions.FixedListCounts | src/pages/Decisions.tsx:27-67 | the fixed list has one decision of each status |
| Decisions.FixedListDates | src/pages/Decisions.tsx:27-67 | on the fixed list only the approved decision shows a decided date |
| Meetings.StatsOf | src/pages/Meetings.tsx:63-68 | the scheduled, video, agenda and notes counters are the numbers of meetings that are scheduled, held over video (video or hybrid), have an agenda ready and have notes captured; each is at most the total |
| Meetings.VideoAndInPersonWithinTotal | src/pages/Meetings.tsx:65 | video meetings plus in-person meetings is at most the total |
| Meetings.NotesCountCapturedMeetings | src/pages/Meetings.tsx:67 | the notes counter is zero if and only if no meeting has its notes captured |
| Meetings.CardOf | src/pages/Meetings.tsx:181-198 | each badge shows if and only if its flag is set; "Join Video" if and only if the meeting is video or hybrid and still scheduled |
| Meetings.JoinVideoIsCountedVideo | src/pages/Meetings.tsx:198 | a meeting offering "Join Video" is counted as video, and a completed meeting never offers it |
| Meetings.FixedListCounts | src/pages/Meetings.tsx:23-61 | the fixed list has 2 scheduled, 2 video, 3 agendas and 1 set of notes, and only the first meeting offers "Join Video" |
| Notifications.UnreadTab | src/pages/Notifications.tsx:64 | the unread tab lists exactly the unread notifications, in order, each as many times as the input holds it; its length is the number of unread positions |
| Notifications.CountersOf | src/pages/Notifications.tsx:16-35 | the Unread card and the tab label equal the unread tab's length, and the Total card the list's length |
| Notifications.NoUnreadIffAllRead | src/pages/Notifications.tsx:16 | the unread counter is zero if and only if every notification has been read |
| Notifications.AllTabCard | src/pages/Notifications.tsx:48-55 | "New" and "Mark as Read" if and only if the notification is unread; "View Details" if and only if it has a link |
| Notifications.UnreadTabCard | src/pages/Notifications.tsx:71-72 | on the unread tab both buttons are always shown |
| Notifications.MarkAsReadMatchesUnreadTab | src/pages/Notifications.tsx:54-64 | the all tab offers "Mark as Read" on exactly the notifications of the unread tab |
| Notifications.UnreadTabOffersDetailsWithoutLink | src/pages/Notifications.tsx:55-72 | an unread notification without a link gets "View Details" on the unread tab but not on the all tab |
| Notifications.FixedListCounts | src/pages/Notifications.tsx:9-14 | the fixed list has 2 unread of 4, the first two, and every notification has a link |
| Seqs.FilterIsSubsequence | src/pages/Projects.tsx:76 | a filtered list is an order-preserving subsequence of its source |
| Seqs.FilterMultiset | src/pages/Projects.tsx:76 | a filter keeps every matching element as many times as the list holds it, and adds nothing |
| Seqs.FilterCount | src/pages/Actions.tsx:156-161 | a filter's length is the number of positions whose element matches |
| Seqs.ExclusiveCounts3 | src/pages/Actions.tsx:156-161 | three pairwise exclusive filters select at most the whole list between them |
| Seqs.SubsequenceTransitive | src/pages/Actions.tsx:354 | a subsequence of a subsequence is a subsequence |
| Text.MatchesEmptyTerm | src/pages/Projects.tsx:77 | the empty search term matches every text |
| Text.ContainsIffOccurs | src/pages/Projects.tsx:77 | `includes` holds if and only if the term occurs at some position |
| Text.Contains | src/pages/Projects.tsx:77 | the empty term is contained in every text, and a contained term is no longer than the text |
| Text.Lower | src/pages/Projects.tsx:77 | lower-casing keeps the length and leaves no upper-case ASCII letter |
| Text.Upper | src/components/layout/TopNav.tsx:44 | upper-casing keeps the length and leaves no lower-case ASCII letter |
| Text.JoinSplit | src/components/layout/TopNav.tsx:40-43 | joining the pieces of a split with the separator gives back the text |
| Text.Split | src/components/layout/TopNav.tsx:41 | a split gives at least one piece, and no piece contains the separator |
| Text.Join | src/components/layout/TopNav.tsx:43 | the joined text starts with the first piece, followed by the separator when there is a second |
| Text.ReplaceFirstAfter | src/components/layout/Sidebar.tsx:176 | replacing the first occurrence changes exactly the first occurrence and nothing else |
| Text.ReplaceFirst | src/components/layout/Sidebar.tsx:176 | the replacement keeps the length, and a text without the character is unchanged |

## Left out

- The hosted authentication service and database are not modelled: every call's outcome is a
  parameter.
- The `setTimeout` deferral of the profile fetch is modelled as pending resolutions completed one
  at a time in any order. Concurrency and the service's internal lock are not modelled.
- React context plumbing and the listener's unsubscription on unmount are not modelled.
- JSX rendering, CSS classes, icons as images, and recharts charts are not modelled. Each page is
  reduced to the decisions it renders: which list, which counter, which button or badge.
- The static role dashboards (`src/pages/dashboards/*`) are out of scope; only their headings
  are used, for the title check. Analytics, Portfolio, KPICard and DashboardLayout are out of
  scope too.
- Floating point is not modelled: `formatFileSize`, budget utilisation, SPI/CPI. Budgets are
  integers.
- Time is not read from a clock. The instant `now` and the instant a week ago are parameters,
  and a date string is abstracted to the instant it parses to, or none.
- Actions.Overdue: invalid dates are modelled as never overdue, which matches JavaScript's `NaN`
  comparisons. Date parsing itself is not modelled.
- Case folding is ASCII only. Unicode case mapping and normalisation are not modelled.
- A `Record` lookup (`roleRoutes[user.role]`, `statusColors[...]`, `roleMap[role]`) is modelled
  as a lookup of the listed keys only. Keys inherited from `Object.prototype` (such as
  `constructor`) are not modelled.
- The `create-user` function's password generation (`Math.random`) is a parameter. The e-mail
  body, `Deno.env`, the CORS header values and the JSON encoding of the body are not modelled.
  The Resend error value is returned rather than thrown and is never inspected, so only a thrown
  mail error fails the request.
- Form input setters (`setFormData` on each keystroke), dialog open/close toggles driven by the
  dialog itself, and select-box state are not modelled. Fields are set directly.
- The hard-coded Alerts (2) and Reminders (1) cards of the notifications page display constants,
  and the status and priority select boxes of the Decisions and Issues pages are never applied.
  Neither needs modelling.
- React Router's ranking between the `/*` shell and the `*` fallback for paths outside the
  table is not modelled: such a path is taken to render the shell with no child page.
- Dashboard.DashboardRedirect: for an unknown role the page navigates to `/dashboard`, where it
  already is. The repeated effect this could cause is not modelled.
- `LoginPage.SubmitEffects` and `LoginPage.SubmitEffectsChecked` carry no contract of their own;
  their properties are the lemmas about them.
- AuthContext.Login: the `{ error }` object `login` resolves with is represented by the error's
  message; its other fields (status, code) are not modelled, and the page never reads them.
- The third argument `role` passed to `login` by the login page is ignored by `login`, which
  takes two parameters. It is modelled as part of the request the page sends.

## Findings

| source | as written | input that shows it | evidently intended | confidence | as-written member | corrected member |
|---|---|---|---|---|---|---|
| src/components/auth/LoginPage.tsx:29-33 | `login` resolves with `{ error }` and never rejects, but the page only catches a rejection, so it reports success and navigates to `/dashboard` whatever the result; the guard then bounces a rejected visitor back to `/login` | any filled-in email and password that the service rejects | report "Login failed" and stay on the page when `login` resolves with an error | not executed | LoginPage.RejectedLoginReportsSuccess | LoginPage.CheckedReportsSuccessIffSignedIn |
| src/components/layout/TopNav.tsx:110 | `user?.role.replace(...)` guards only a missing user; a user whose role is null makes `replace` throw while the menu renders | a profile with no `user_roles` row (or a failed role query), which gives `role: null` | guard the role as the sidebar does (line 176), showing "guest" | not executed | TopNav.NullRoleCrashesRoleLine | TopNav.RoleLineCheckedAgrees |
| src/components/projects/ProjectCard.tsx:106 | `project.budget && (...)` renders the number 0 as the text "0" when the budget is zero | a project with `budget = 0`, the dialog's default | hide the budget line for a zero budget without stray text | not executed | ProjectCard.ZeroBudgetRendersZero | ProjectCard.BudgetDetailAgrees |
