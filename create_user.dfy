/**
 * The `create-user` edge function: an administrator's request creates the auth user, the
 * profile and the role row, then mails the credentials; the first failure ends the request.
 */
module CreateUser {
  import opened Common
  import opened Roles

  /** `roleMap`: the display name of each role, as the user-management form offers them. */
  function RoleMap(displayName: string): (r: Option<Role>)
    ensures r.Some? ==> DisplayName(r.value) == displayName
  {
    if displayName == "Top Management" then Some(TopManagement)
    else if displayName == "Project Owner" then Some(ProjectOwner)
    else if displayName == "Project Manager" then Some(ProjectManager)
    else if displayName == "Project Officer" then Some(ProjectOfficer)
    else if displayName == "System Admin" then Some(SystemAdmin)
    else None
  }

  /** The key of `roleMap` that maps to each role. */
  function DisplayName(r: Role): string {
    match r
    case TopManagement => "Top Management"
    case ProjectOwner => "Project Owner"
    case ProjectManager => "Project Manager"
    case ProjectOfficer => "Project Officer"
    case SystemAdmin => "System Admin"
  }

  /** Every role has exactly one display name in the map, and different names give different roles. */
  lemma RoleMapIsBijective(r: Role, name1: string, name2: string)
    ensures RoleMap(DisplayName(r)) == Some(r)
    ensures RoleMap(name1).Some? && RoleMap(name1) == RoleMap(name2) ==> name1 == name2
  {
  }

  /** `roleMap[role] || role`: the enumeration value of a display name; other strings unchanged. */
  function DbRole(role: string): (db: string)
    ensures RoleMap(role).Some? ==> db == Name(RoleMap(role).value)
    ensures RoleMap(role).None? ==> db == role
  {
    match RoleMap(role)
    case Some(r) => Name(r)
    case None => role
  }

  /** A display name becomes a wire string that reads back as the same role. */
  lemma DbRoleIsEnumValue(r: Role)
    ensures DbRole(DisplayName(r)) == Name(r)
    ensures Parse(DbRole(DisplayName(r))) == Some(r)
  {
    ParseName(r);
  }

  /** The request body. `phone` and `department` may be absent. */
  datatype CreateUserRequest = CreateUserRequest(
    email: string,
    fullName: string,
    role: string,
    phone: Option<string>,
    department: Option<string>)

  /** The parsed request body, or the message of the parse failure. */
  datatype RequestBody = Parsed(req: CreateUserRequest) | ParseError(message: string)

  /** `value || null` for an optional string field. */
  function OrNull(value: Option<string>): (stored: Option<string>)
    ensures stored.Some? <==> value.Some? && value.value != ""
    ensures stored.Some? ==> stored == value
  {
    if value.Some? && value.value != "" then value else None
  }

  /** The user an admin `createUser` call answers with. */
  datatype AuthUser = AuthUser(id: string, email: Option<string>)

  datatype CreateOutcome = CreateError(message: string) | Created(user: Option<AuthUser>)

  /** The outcome of the mail call: sent, an error value it hands back, or an exception. */
  datatype MailOutcome = Sent | MailError(message: string) | MailThrew(message: string)

  datatype AdminCall =
    | CreateAuthUser(email: string, password: string, fullName: string)
    | InsertProfile(userId: string, fullName: string, email: string, phone: Option<string>, department: Option<string>)
    | InsertRole(userId: string, role: string)
    | SendCredentials(to: string, fullName: string, password: string, role: string)

  datatype ResponseBody =
    | NoBody
    | CreatedUser(id: string, email: Option<string>, fullName: string, role: string)
    | Failure(message: string)

  datatype Response = Response(status: int, body: ResponseBody)

  /** The preflight answer: the CORS headers and no body (the status defaults to 200). */
  const Preflight := Response(200, NoBody)

  /** All four steps of a request, in order, when every one is reached. */
  function AllSteps(req: CreateUserRequest, password: string, userId: string): seq<AdminCall> {
    [CreateAuthUser(req.email, password, req.fullName),
     InsertProfile(userId, req.fullName, req.email, OrNull(req.phone), OrNull(req.department)),
     InsertRole(userId, DbRole(req.role)),
     SendCredentials(req.email, req.fullName, password, req.role)]
  }

  /** How many of the steps run: a step that fails is the last one. */
  function StepsRun(auth: CreateOutcome, profileError: Option<string>, roleError: Option<string>): (n: nat)
    ensures 1 <= n <= 4
  {
    if auth.CreateError? || auth.user.None? then 1
    else if profileError.Some? then 2
    else if roleError.Some? then 3
    else 4
  }

  /** The message of the first failing step, if a step fails. */
  function FirstError(auth: CreateOutcome, profileError: Option<string>, roleError: Option<string>, mail: MailOutcome): (error: Option<string>)
    ensures error.None? <==> auth.Created? && auth.user.Some? && profileError.None? && roleError.None? && !mail.MailThrew?
    ensures auth.CreateError? ==> error == Some(auth.message)
  {
    if auth.CreateError? then Some(auth.message)
    else if auth.user.None? then Some("User creation failed")
    else if profileError.Some? then profileError
    else if roleError.Some? then roleError
    else if mail.MailThrew? then Some(mail.message)
    else None
  }

  /**
   * `handler`. `body` is the parsed request, or the message of the exception `req.json()`
   * raised; `password` is the generated password; the remaining parameters are the answers of
   * the services. Nothing already done is undone when a later step fails.
   */
  method Handle(isOptions: bool, body: RequestBody, password: string, auth: CreateOutcome,
                profileError: Option<string>, roleError: Option<string>, mail: MailOutcome)
    returns (resp: Response, calls: seq<AdminCall>)
    ensures isOptions ==> resp == Preflight && calls == []
    ensures !isOptions && body.ParseError? ==> resp == Response(500, Failure(body.message)) && calls == []
    ensures !isOptions && body.Parsed? ==>
      var userId := if auth.Created? && auth.user.Some? then auth.user.value.id else "";
      calls == AllSteps(body.req, password, userId)[..StepsRun(auth, profileError, roleError)]
    ensures !isOptions && body.Parsed? && FirstError(auth, profileError, roleError, mail).Some? ==>
      resp == Response(500, Failure(FirstError(auth, profileError, roleError, mail).value))
    ensures !isOptions && body.Parsed? && FirstError(auth, profileError, roleError, mail).None? ==>
      resp == Response(200, CreatedUser(auth.user.value.id, auth.user.value.email, body.req.fullName, DbRole(body.req.role)))
  {
    if isOptions {
      return Preflight, [];
    }
    if body.ParseError? {
      return Response(500, Failure(body.message)), [];
    }
    var req := body.req;
    calls := [CreateAuthUser(req.email, password, req.fullName)];
    if auth.CreateError? {
      return Response(500, Failure(auth.message)), calls;
    }
    if auth.user.None? {
      return Response(500, Failure("User creation failed")), calls;
    }
    var user := auth.user.value;
    calls := calls + [InsertProfile(user.id, req.fullName, req.email, OrNull(req.phone), OrNull(req.department))];
    if profileError.Some? {
      return Response(500, Failure(profileError.value)), calls;
    }
    var dbRole := DbRole(req.role);
    calls := calls + [InsertRole(user.id, dbRole)];
    if roleError.Some? {
      return Response(500, Failure(roleError.value)), calls;
    }
    calls := calls + [SendCredentials(req.email, req.fullName, password, req.role)];
    if mail.MailThrew? {
      return Response(500, Failure(mail.message)), calls;
    }
    resp := Response(200, CreatedUser(user.id, user.email, req.fullName, dbRole));
  }

  /** A request succeeds exactly when the three writes succeed and the mail call does not throw. */
  lemma SuccessIffAllWritesSucceed(auth: CreateOutcome, profileError: Option<string>, roleError: Option<string>, mail: MailOutcome)
    ensures FirstError(auth, profileError, roleError, mail).None? <==>
      auth.Created? && auth.user.Some? && profileError.None? && roleError.None? && !mail.MailThrew?
    ensures FirstError(auth, profileError, roleError, mail).None? ==> StepsRun(auth, profileError, roleError) == 4
  {
  }

  /** A failed profile insert leaves the auth user created: its creation is among the calls made. */
  lemma NoRollback(req: CreateUserRequest, password: string, user: AuthUser, message: string, roleError: Option<string>)
    ensures var n := StepsRun(Created(Some(user)), Some(message), roleError);
      n == 2 && AllSteps(req, password, user.id)[..n][0] == CreateAuthUser(req.email, password, req.fullName)
  {
  }
}
