/**
 * The session store of the application (`AuthProvider`): the signed-in user's resolved
 * identity, the provider's session and the loading flag, driven by authentication events.
 * The authentication service and the database are outside the model: every call into them
 * is a parameter holding its outcome.
 */
module AuthContext {
  import opened Common
  import opened Roles

  /** The identity the components read: the profile row combined with the first role row. */
  datatype User = User(id: string, email: string, name: string, role: Option<UserRole>)

  /** The principal issued by the authentication service. */
  datatype Principal = Principal(id: string, email: string)

  /** A live session of the authentication service. */
  datatype Session = Session(user: Principal)

  /** The `full_name, email` columns of a `profiles` row. */
  datatype ProfileRow = ProfileRow(fullName: string, email: string)

  /**
   * The outcome of one awaited query: it threw, or it resolved with `data` (null when the
   * row or rows are missing or the query failed) and an error flag.
   */
  datatype Query<T> = Threw | Resolved(data: Option<T>, failed: bool)

  /** The role column of `user_roles` rows as read (limit 1), first row first. */
  function FirstRole(rows: Option<seq<string>>): (r: Option<UserRole>)
    ensures r.Some? <==> rows.Some? && |rows.value| > 0
    ensures r.Some? ==> AsString(r.value) == rows.value[0]
  {
    if rows.Some? && |rows.value| > 0 then Some(FromString(rows.value[0])) else None
  }

  /**
   * `fetchUserProfile`: the profile query runs first, then the role query; an exception in
   * either gives null, a missing profile gives null, and a failed role query only logs.
   */
  function FetchUserProfile(userId: string, profile: Query<ProfileRow>, roles: Query<seq<string>>): (r: Option<User>)
    ensures r.Some? <==> profile.Resolved? && profile.data.Some? && roles.Resolved?
    ensures r.Some? ==>
              r.value.id == userId && r.value.email == profile.data.value.email && r.value.name == profile.data.value.fullName
    ensures r.Some? ==> (r.value.role.Some? <==> roles.data.Some? && |roles.data.value| > 0)
    ensures r.Some? && r.value.role.Some? ==> AsString(r.value.role.value) == roles.data.value[0]
  {
    match profile
    case Threw => None
    case Resolved(row, _) =>
      match roles
      case Threw => None
      case Resolved(rows, _) =>
        if row.Some? then Some(User(userId, row.value.email, row.value.fullName, FirstRole(rows))) else None
  }

  /** A missing profile gives no user, whatever the role rows contain. */
  lemma MissingProfileGivesNoUser(userId: string, failed: bool, roles: Query<seq<string>>)
    ensures FetchUserProfile(userId, Resolved(None, failed), roles) == None
  {
  }

  /**
   * A failed role query (the client then returns no data) leaves the user with no role;
   * a profile without role rows likewise, and neither is an error.
   */
  lemma RoleQueryFailureGivesNullRole(userId: string, row: ProfileRow, rows: Option<seq<string>>, failed: bool)
    requires failed ==> rows.None?
    requires rows.Some? ==> rows.value == []
    ensures FetchUserProfile(userId, Resolved(Some(row), false), Resolved(rows, failed))
         == Some(User(userId, row.email, row.fullName, None))
  {
  }

  /** The result of a call into the authentication service or a database insert. */
  datatype Outcome = Ok | Failed(message: string) | Raised(message: string)

  /** `login`: it resolves with the error of the sign-in call, and never rejects. */
  function Login(signIn: Outcome): (error: Option<string>)
    ensures error.None? <==> signIn.Ok?
    ensures error.Some? ==> error.value == signIn.message
  {
    match signIn
    case Ok => None
    case Failed(m) => Some(m)
    case Raised(m) => Some(m)
  }

  /** The outcome of `auth.signUp`: an error, or data holding the new principal (or null). */
  datatype SignUpOutcome = SignUpError(message: string) | SignedUp(user: Option<Principal>)

  /** A call the store makes into the hosted services. */
  datatype ServiceCall =
    | SignUp(email: string, password: string, fullName: string)
    | InsertProfile(userId: string, fullName: string, email: string)
    | InsertRole(userId: string, role: Role)
    | SignOut

  /**
   * `signup`: sign up, then insert the profile, then insert the role; the first failure
   * ends the sequence and is returned (earlier steps are not undone).
   */
  method Signup(email: string, password: string, name: string, role: Role,
                signUp: SignUpOutcome, profileInsert: Option<string>, roleInsert: Option<string>)
    returns (error: Option<string>, calls: seq<ServiceCall>)
    ensures |calls| >= 1 && calls[0] == SignUp(email, password, name)
    ensures error.None? <==> signUp.SignedUp? && signUp.user.Some? && profileInsert.None? && roleInsert.None?
    ensures signUp.SignUpError? ==> calls == [SignUp(email, password, name)] && error == Some(signUp.message)
    ensures signUp.SignedUp? && signUp.user.None? ==>
              calls == [SignUp(email, password, name)] && error == Some("User creation failed")
    ensures signUp.SignedUp? && signUp.user.Some? ==>
              |calls| >= 2 && calls[1] == InsertProfile(signUp.user.value.id, name, email)
    ensures signUp.SignedUp? && signUp.user.Some? && profileInsert.Some? ==>
              |calls| == 2 && error == profileInsert
    ensures signUp.SignedUp? && signUp.user.Some? && profileInsert.None? ==>
              |calls| == 3 && calls[2] == InsertRole(signUp.user.value.id, role) && error == roleInsert
  {
    calls := [SignUp(email, password, name)];
    if signUp.SignUpError? {
      return Some(signUp.message), calls;
    }
    if signUp.user.None? {
      return Some("User creation failed"), calls;
    }
    var id := signUp.user.value.id;
    calls := calls + [InsertProfile(id, name, email)];
    if profileInsert.Some? {
      return profileInsert, calls;
    }
    calls := calls + [InsertRole(id, role)];
    if roleInsert.Some? {
      return roleInsert, calls;
    }
    return None, calls;
  }

  /** A profile resolution scheduled with `setTimeout` and not yet completed. */
  datatype Deferred = Deferred(userId: string, clearsLoading: bool)

  /**
   * The provider's state. Resolutions are deferred, so they are kept in `pending` and
   * completed one at a time by `CompleteResolution`, in any order.
   */
  class AuthProvider {
    var user: Option<User>
    var session: Option<Session>
    var isLoading: bool
    var pending: seq<Deferred>

    /**
     * While loading, no user is shown and the only resolutions outstanding are those of the
     * initial `getSession` check (the ones that clear the loading flag themselves).
     */
    ghost predicate Valid()
      reads this
    {
      isLoading ==> user.None? && forall i :: 0 <= i < |pending| ==> pending[i].clearsLoading
    }

    constructor ()
      ensures Valid()
      ensures user.None? && session.None? && isLoading && pending == []
    {
      user, session, isLoading, pending := None, None, true, [];
    }

    /** The `onAuthStateChange` listener. */
    method OnAuthStateChange(s: Option<Session>)
      requires Valid()
      modifies this
      ensures Valid()
      ensures session == s && !isLoading
      ensures s.None? ==> user.None? && pending == old(pending)
      ensures s.Some? ==> user == old(user) && pending == old(pending) + [Deferred(s.value.user.id, false)]
    {
      session := s;
      if s.Some? {
        pending := pending + [Deferred(s.value.user.id, false)];
      } else {
        user := None;
      }
      isLoading := false;
    }

    /** The callback of the initial `getSession()` check. */
    method OnInitialSession(s: Option<Session>)
      requires Valid()
      modifies this
      ensures Valid()
      ensures session == s && user == old(user)
      ensures s.None? ==> !isLoading && pending == old(pending)
      ensures s.Some? ==> isLoading == old(isLoading) && pending == old(pending) + [Deferred(s.value.user.id, true)]
    {
      session := s;
      if s.Some? {
        pending := pending + [Deferred(s.value.user.id, true)];
      } else {
        isLoading := false;
      }
    }

    /**
     * One deferred resolution completes with the given query outcomes: the user becomes the
     * resolved profile, and the loading flag is cleared if this resolution clears it.
     */
    method CompleteResolution(i: nat, profile: Query<ProfileRow>, roles: Query<seq<string>>)
      requires Valid() && i < |pending|
      modifies this
      ensures Valid()
      ensures user == FetchUserProfile(old(pending[i]).userId, profile, roles)
      ensures session == old(session) && pending == old(pending[..i] + pending[i + 1..])
      ensures !isLoading
    {
      var task := pending[i];
      user := FetchUserProfile(task.userId, profile, roles);
      if task.clearsLoading {
        isLoading := false;
      }
      pending := pending[..i] + pending[i + 1..];
    }

    /** `logout`: only asks the service to sign out; the state changes when its event arrives. */
    method Logout() returns (call: ServiceCall)
      ensures call == SignOut
    {
      call := SignOut;
    }
  }
}
