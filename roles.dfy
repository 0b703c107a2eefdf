/**
 * The `app_role` enumeration of the database and the role value a signed-in user carries.
 * The role column is read as a string and cast, so a user's role is one of the five known
 * roles, a string outside the enumeration, or absent.
 */
module Roles {
  import opened Common

  datatype Role = TopManagement | ProjectOwner | ProjectManager | ProjectOfficer | SystemAdmin

  const AllRoles: seq<Role> := [TopManagement, ProjectOwner, ProjectManager, ProjectOfficer, SystemAdmin]

  /** The wire string of each `app_role` value. */
  function Name(r: Role): string {
    match r
    case TopManagement => "top_management"
    case ProjectOwner => "project_owner"
    case ProjectManager => "project_manager"
    case ProjectOfficer => "project_officer"
    case SystemAdmin => "system_admin"
  }

  /** Reads a wire string back as an `app_role` value, or nothing for any other string. */
  function Parse(s: string): (r: Option<Role>)
    ensures r.Some? ==> Name(r.value) == s
  {
    if s == "top_management" then Some(TopManagement)
    else if s == "project_owner" then Some(ProjectOwner)
    else if s == "project_manager" then Some(ProjectManager)
    else if s == "project_officer" then Some(ProjectOfficer)
    else if s == "system_admin" then Some(SystemAdmin)
    else None
  }

  lemma ParseName(r: Role)
    ensures Parse(Name(r)) == Some(r)
  {
  }

  /** The five wire strings are pairwise distinct and none of them is empty. */
  lemma NamesDistinct(r1: Role, r2: Role)
    ensures Name(r1) == Name(r2) <==> r1 == r2
    ensures Name(r1) != ""
  {
    ParseName(r1);
    ParseName(r2);
  }

  lemma AllRolesComplete(r: Role)
    ensures r in AllRoles
  {
  }

  /** A role string as held in memory: a known enumeration value or some other string. */
  datatype RoleValue = Known(role: Role) | Unknown(name: string)

  /** Only strings outside the enumeration are `Unknown`, so each string has one representation. */
  type UserRole = v: RoleValue | v.Unknown? ==> Parse(v.name).None? witness Known(TopManagement)

  /** The string a role value stands for. */
  function AsString(v: RoleValue): string {
    match v
    case Known(r) => Name(r)
    case Unknown(s) => s
  }

  /** Classifies the string read from the role column. */
  function FromString(s: string): (v: UserRole)
    ensures AsString(v) == s
  {
    match Parse(s)
    case Some(r) => Known(r)
    case None => Unknown(s)
  }

  /** Classifying the string of a role value gives that value back. */
  lemma FromStringText(v: UserRole)
    ensures FromString(AsString(v)) == v
  {
    if v.Known? {
      ParseName(v.role);
    }
  }

  /** The role of a user is exactly `r` (`user?.role === 'r'` in the source). */
  predicate Is(role: Option<UserRole>, r: Role) {
    role == Some(Known(r))
  }
}
