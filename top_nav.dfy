/**
 * The top bar: the avatar initials, the role line of the user menu and the logout handler.
 */
module TopNav {
  import opened Common
  import opened Roles
  import opened Text
  import opened Ui
  import AuthContext
  import AppRoutes
  import Sidebar

  /** For each word, its first character; an empty word (`n[0]` undefined) contributes nothing. */
  function Firsts(words: seq<string>): string {
    if words == [] then []
    else (if words[0] == [] then [] else [words[0][0]]) + Firsts(words[1..])
  }

  /** At most the first two characters (`slice(0, 2)`). */
  function Take2(s: string): (r: string)
    ensures |r| <= 2 && r <= s
    ensures |s| <= 2 ==> r == s
  {
    if |s| <= 2 then s else s[..2]
  }

  /** `getInitials`: split on spaces, first characters, joined, upper-cased, first two. */
  function GetInitials(name: string): (r: string)
    ensures |r| <= 2
    ensures forall i :: 0 <= i < |r| ==> !IsLowerAscii(r[i])
  {
    Take2(Upper(Firsts(Split(name, ' '))))
  }

  /**
   * The characters of `s` that start a word: not a space, and at the start of `s` (when
   * `prevSpace`) or right after a space.
   */
  function StartsFrom(s: string, prevSpace: bool): string {
    if s == [] then []
    else (if prevSpace && s[0] != ' ' then [s[0]] else []) + StartsFrom(s[1..], s[0] == ' ')
  }

  function WordStarts(name: string): string {
    StartsFrom(name, true)
  }

  lemma FirstsCons(w: string, rest: seq<string>)
    ensures Firsts([w] + rest) == (if w == [] then [] else [w[0]]) + Firsts(rest)
  {
    assert ([w] + rest)[1..] == rest;
  }

  /** The first characters of the split pieces are the characters that start a word. */
  lemma {:induction false} FirstsOfSplit(s: string)
    ensures Firsts(Split(s, ' ')) == StartsFrom(s, true)
    ensures Firsts(Split(s, ' ')[1..]) == StartsFrom(s, false)
    decreases |s|
  {
    if s != [] {
      var rest := Split(s[1..], ' ');
      FirstsOfSplit(s[1..]);
      if s[0] == ' ' {
        assert Split(s, ' ') == [[]] + rest;
        FirstsCons([], rest);
        assert Split(s, ' ')[1..] == rest;
      } else {
        assert Split(s, ' ') == [[s[0]] + rest[0]] + rest[1..];
        FirstsCons([s[0]] + rest[0], rest[1..]);
        assert Split(s, ' ')[1..] == rest[1..];
      }
    }
  }

  /** The initials are the first two word starts, upper-cased. */
  lemma InitialsAreWordStarts(name: string)
    ensures GetInitials(name) == Take2(Upper(WordStarts(name)))
  {
    FirstsOfSplit(name);
  }

  lemma {:induction false} StartsFromAppend(a: string, b: string, p: bool)
    ensures StartsFrom(a + b, p) == StartsFrom(a, p) + StartsFrom(b, if a == [] then p else a[|a| - 1] == ' ')
    decreases |a|
  {
    if a != [] {
      assert (a + b)[0] == a[0] && (a + b)[1..] == a[1..] + b;
      StartsFromAppend(a[1..], b, a[0] == ' ');
      if |a| > 1 {
        assert a[1..][|a[1..]| - 1] == a[|a| - 1];
      }
    } else {
      assert a + b == b;
    }
  }

  /** Inside a word (no spaces, previous character not a space) nothing starts a word. */
  lemma {:induction false} NoStartsInsideWord(s: string)
    requires ' ' !in s
    ensures StartsFrom(s, false) == []
  {
    if s != [] {
      NoStartsInsideWord(s[1..]);
    }
  }

  /** A name without spaces gives exactly its first letter, upper-cased. */
  lemma SingleWordInitial(name: string)
    requires name != [] && ' ' !in name
    ensures GetInitials(name) == [UpperChar(name[0])]
  {
    InitialsAreWordStarts(name);
    NoStartsInsideWord(name[1..]);
    assert WordStarts(name) == [name[0]];
    UpperAt(WordStarts(name), 0);
  }

  /** Two words separated by one space give their two first letters, upper-cased. */
  lemma TwoWordInitials(first: string, last: string)
    requires first != [] && ' ' !in first && last != [] && ' ' !in last
    ensures GetInitials(first + " " + last) == [UpperChar(first[0]), UpperChar(last[0])]
  {
    var name := first + " " + last;
    InitialsAreWordStarts(name);
    StartsFromAppend(first + " ", last, true);
    StartsFromAppend(first, " ", true);
    NoStartsInsideWord(first[1..]);
    NoStartsInsideWord(last[1..]);
    assert StartsFrom(first, true) == [first[0]];
    assert StartsFrom(" ", ' ' == ' ') == [];
    assert StartsFrom(last, true) == [last[0]];
    assert WordStarts(name) == [first[0], last[0]];
    UpperAt(WordStarts(name), 0);
    UpperAt(WordStarts(name), 1);
  }

  lemma KwameMensahInitials()
    ensures GetInitials("Kwame Mensah") == "KM"
  {
    assert "Kwame Mensah" == "Kwame" + " " + "Mensah";
    TwoWordInitials("Kwame", "Mensah");
  }

  /** The avatar text: the initials of the user's name, or "U" with no user. */
  function AvatarText(user: Option<AuthContext.User>): (text: string)
    ensures user.None? ==> text == "U"
    ensures user.Some? ==> text == GetInitials(user.value.name)
  {
    if user.Some? then GetInitials(user.value.name) else "U"
  }

  /** How the role line of the user menu renders. */
  datatype RoleLine = Blank | Shown(text: string) | Crash

  /**
   * The role line as written: optional chaining covers a missing user only, so a user whose
   * role is null makes the call of `replace` fail.
   */
  function RoleLineAsWritten(user: Option<AuthContext.User>): (line: RoleLine)
    ensures line == Blank <==> user.None?
    ensures line == Crash <==> user.Some? && user.value.role.None?
  {
    if user.None? then Blank
    else if user.value.role.None? then Crash
    else Shown(ReplaceFirst(AsString(user.value.role.value), '_', ' '))
  }

  /** A signed-in user whose profile has no role row crashes the menu as written. */
  lemma NullRoleCrashesRoleLine(userId: string, row: AuthContext.ProfileRow)
    ensures var user := AuthContext.FetchUserProfile(userId, AuthContext.Resolved(Some(row), false), AuthContext.Resolved(Some([]), false));
      user.Some? && RoleLineAsWritten(user) == Crash
  {
    AuthContext.RoleQueryFailureGivesNullRole(userId, row, Some([]), false);
  }

  /** The role line guarded as in the sidebar panel. */
  function RoleLineChecked(user: Option<AuthContext.User>): (line: RoleLine)
    ensures line == Blank <==> user.None?
    ensures line != Crash
  {
    if user.None? then Blank else Shown(Sidebar.RoleLabel(user.value.role))
  }

  /** The guarded line never fails and agrees with the written one wherever that one renders a role. */
  lemma RoleLineCheckedAgrees(user: Option<AuthContext.User>)
    ensures RoleLineChecked(user) != Crash
    ensures RoleLineChecked(user).Blank? <==> user.None?
    ensures user.Some? && user.value.role.Some? && AsString(user.value.role.value) != "" ==>
      RoleLineChecked(user) == RoleLineAsWritten(user)
    ensures user.Some? && user.value.role.None? ==> RoleLineChecked(user) == Shown("guest")
  {
  }

  const LoggedOut := "Logged out successfully"

  /** `handleLogout`: sign-out is started, not awaited; then the toast and the navigation. */
  function LogoutEffects(): (effects: seq<Effect<AuthContext.ServiceCall>>)
    ensures SendsRequest(effects) && Navigates(effects, "/login") && ReportsSuccess(effects)
    ensures effects[0] == Send(AuthContext.SignOut) && effects[|effects| - 1] == NavigateTo("/login")
  {
    var effects: seq<Effect<AuthContext.ServiceCall>> := [Send(AuthContext.SignOut), ShowToast(Success(LoggedOut)), NavigateTo("/login")];
    assert effects[0].Send? && effects[1].ShowToast? && effects[1].toast.Success? && effects[2] == NavigateTo("/login");
    effects
  }

  /**
   * The navigation to `/login` is issued before the service has answered, so the user is still
   * set when the login route is rendered and it sends the visitor back to the dashboard.
   */
  lemma LogoutNavigatesWhileSignedIn(user: AuthContext.User)
    ensures Navigates(LogoutEffects(), "/login")
    ensures LogoutEffects()[0] == Send(AuthContext.SignOut)
    ensures AppRoutes.Route("/login", false, Some(user)) == AppRoutes.RedirectTo("/dashboard")
  {
    assert LogoutEffects()[2] == NavigateTo("/login");
  }

  /**
   * The user is cleared only by the signed-out event of the listener; after it the login route
   * shows the login form.
   */
  method LogoutThenSignedOutEvent(provider: AuthContext.AuthProvider) returns (beforeEvent: AppRoutes.Screen, afterEvent: AppRoutes.Screen)
    requires provider.Valid() && provider.user.Some?
    modifies provider
    ensures beforeEvent == AppRoutes.RedirectTo("/dashboard")
    ensures afterEvent == AppRoutes.LoginPage
  {
    var call := provider.Logout();
    beforeEvent := AppRoutes.Route("/login", provider.isLoading, provider.user);
    provider.OnAuthStateChange(None);
    afterEvent := AppRoutes.Route("/login", provider.isLoading, provider.user);
  }
}
