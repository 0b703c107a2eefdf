/**
 * The login form: its fields, the empty-field check and what a submit does with the result of
 * `login`.
 */
module LoginPage {
  import opened Common
  import opened Roles
  import opened Ui
  import AuthContext
  import AppRoutes

  /** The request a submit sends: `login(email, password, role)`. */
  datatype LoginCall = LoginCall(email: string, password: string, role: Role)

  const FillAllFields := "Please fill in all fields"
  const LoginSuccessful := "Login successful"
  const LoginFailed := "Login failed. Please try again."

  /**
   * The effects of a submit as the page is written. `loginError` is what `login` resolves with;
   * `login` never rejects, so the page's error branch cannot be reached and the result is unused.
   */
  function SubmitEffects(email: string, password: string, role: Role, loginError: Option<string>): seq<Effect<LoginCall>>
  {
    if email == "" || password == "" then [ShowToast(Error(FillAllFields))]
    else [SetBusy(true), Send(LoginCall(email, password, role)), ShowToast(Success(LoginSuccessful)), NavigateTo("/dashboard"), SetBusy(false)]
  }

  /** The effects of a submit that looks at the resolved error before reporting success. */
  function SubmitEffectsChecked(email: string, password: string, role: Role, loginError: Option<string>): seq<Effect<LoginCall>>
  {
    if email == "" || password == "" then [ShowToast(Error(FillAllFields))]
    else if loginError.Some? then [SetBusy(true), Send(LoginCall(email, password, role)), ShowToast(Error(LoginFailed)), SetBusy(false)]
    else SubmitEffects(email, password, role, loginError)
  }

  /** An empty field stops the submit before any request, and the busy flag is never raised. */
  lemma EmptyFieldSendsNothing(email: string, password: string, role: Role, loginError: Option<string>)
    requires email == "" || password == ""
    ensures !SendsRequest(SubmitEffects(email, password, role, loginError))
    ensures !SendsRequest(SubmitEffectsChecked(email, password, role, loginError))
    ensures forall i :: 0 <= i < |SubmitEffects(email, password, role, loginError)| ==> !SubmitEffects(email, password, role, loginError)[i].SetBusy?
  {
  }

  /** With both fields given, the flag is raised before the request and lowered by the last effect. */
  lemma BusyAroundCall(email: string, password: string, role: Role, loginError: Option<string>)
    requires email != "" && password != ""
    ensures var e := SubmitEffects(email, password, role, loginError);
      e[0] == SetBusy(true) && e[1].Send? && e[|e| - 1] == SetBusy(false) &&
      forall i :: 1 <= i < |e| - 1 ==> !e[i].SetBusy?
    ensures var e := SubmitEffectsChecked(email, password, role, loginError);
      e[0] == SetBusy(true) && e[1].Send? && e[|e| - 1] == SetBusy(false) &&
      forall i :: 1 <= i < |e| - 1 ==> !e[i].SetBusy?
  {
  }

  /** As written: credentials the service rejects still give the success toast and the redirect. */
  lemma RejectedLoginReportsSuccess(email: string, password: string, role: Role, message: string)
    requires email != "" && password != ""
    ensures var e := SubmitEffects(email, password, role, AuthContext.Login(AuthContext.Failed(message)));
      ReportsSuccess(e) && Navigates(e, "/dashboard")
  {
    var e := SubmitEffects(email, password, role, AuthContext.Login(AuthContext.Failed(message)));
    assert e[2].ShowToast? && e[2].toast.Success?;
    assert e[3] == NavigateTo("/dashboard");
  }

  /**
   * After a rejected sign-in no user is set and loading is over, so the navigation the page issues
   * reaches the guard, which sends the visitor back to the form: the dashboard never shows.
   */
  lemma RejectedLoginBouncesToForm(email: string, password: string, role: Role, message: string)
    requires email != "" && password != ""
    ensures var e := SubmitEffects(email, password, role, AuthContext.Login(AuthContext.Failed(message)));
      e[3].NavigateTo? &&
      AppRoutes.Route(e[3].path, false, None) == AppRoutes.RedirectTo("/login") &&
      AppRoutes.Route("/login", false, None) == AppRoutes.LoginPage
  {
  }

  /** Checked: success is reported, and the dashboard opened, exactly when the sign-in succeeded. */
  lemma CheckedReportsSuccessIffSignedIn(email: string, password: string, role: Role, signIn: AuthContext.Outcome)
    ensures var e := SubmitEffectsChecked(email, password, role, AuthContext.Login(signIn));
      (ReportsSuccess(e) <==> email != "" && password != "" && signIn.Ok?) &&
      (Navigates(e, "/dashboard") <==> email != "" && password != "" && signIn.Ok?)
  {
    var e := SubmitEffectsChecked(email, password, role, AuthContext.Login(signIn));
    if email != "" && password != "" && signIn.Ok? {
      assert e[2].ShowToast? && e[2].toast.Success?;
      assert e[3] == NavigateTo("/dashboard");
    }
  }

  /** The form's state. */
  class LoginForm {
    var email: string
    var password: string
    var role: Role
    var isLoading: bool

    constructor ()
      ensures email == "" && password == "" && role == ProjectManager && !isLoading
    {
      email, password, role, isLoading := "", "", ProjectManager, false;
    }

    /** `handleSubmit` as the page is written, with `signIn` the answer of the service. */
    method HandleSubmit(signIn: AuthContext.Outcome) returns (effects: seq<Effect<LoginCall>>)
      modifies this
      ensures effects == SubmitEffects(email, password, role, AuthContext.Login(signIn))
      ensures email == old(email) && password == old(password) && role == old(role)
      ensures isLoading == (if email == "" || password == "" then old(isLoading) else false)
    {
      if email == "" || password == "" {
        effects := [ShowToast(Error(FillAllFields))];
        return;
      }
      isLoading := true;
      effects := [SetBusy(true), Send(LoginCall(email, password, role))];
      var loginError := AuthContext.Login(signIn);
      effects := effects + [ShowToast(Success(LoginSuccessful)), NavigateTo("/dashboard")];
      isLoading := false;
      effects := effects + [SetBusy(false)];
    }
  }
}
