/**
 * The user-management page: the user table with its search and role and status filters, the
 * add-user dialog and its role options.
 */
module UserManagement {
  import opened Text
  import opened Seqs
  import CreateUser

  /** A row of the table; `role` is a display name such as "Project Owner". */
  datatype ManagedUser = ManagedUser(id: string, name: string, email: string, role: string, phone: string, country: string, status: string)

  /** The fixed table the page shows. */
  const DummyUsers: seq<ManagedUser> := [
    ManagedUser("1", "Kwame Mensah", "kwame.mensah@gra.gov.gh", "Project Owner", "+233 24 123 4567", "Ghana", "Active"),
    ManagedUser("2", "Ama Asante", "ama.asante@gra.gov.gh", "Project Manager", "+233 24 234 5678", "Ghana", "Active"),
    ManagedUser("3", "Kofi Adjei", "kofi.adjei@gra.gov.gh", "Project Officer", "+233 24 345 6789", "Ghana", "Inactive"),
    ManagedUser("4", "Abena Owusu", "abena.owusu@gra.gov.gh", "Top Management", "+233 24 456 7890", "Ghana", "Active"),
    ManagedUser("5", "Yaw Boateng", "yaw.boateng@gra.gov.gh", "Project Manager", "+233 24 567 8901", "Ghana", "Active")
  ]

  /** A user passes when the name or email contains the query and both filters accept it. */
  predicate UserMatches(u: ManagedUser, query: string, roleFilter: string, statusFilter: string)
    ensures query == "" && roleFilter == "all" && statusFilter == "all" ==> UserMatches(u, query, roleFilter, statusFilter)
    ensures UserMatches(u, query, roleFilter, statusFilter) && roleFilter != "all" ==> u.role == roleFilter
    ensures UserMatches(u, query, roleFilter, statusFilter) && statusFilter != "all" ==> u.status == statusFilter
  {
    MatchesEmptyTerm(u.name);
    (MatchesIgnoringCase(u.name, query) || MatchesIgnoringCase(u.email, query))
    && (roleFilter == "all" || u.role == roleFilter)
    && (statusFilter == "all" || u.status == statusFilter)
  }

  /** `filteredUsers`. */
  function FilterUsers(users: seq<ManagedUser>, query: string, roleFilter: string, statusFilter: string): (r: seq<ManagedUser>)
    ensures IsSubsequence(r, users)
    ensures forall i :: 0 <= i < |r| ==> UserMatches(r[i], query, roleFilter, statusFilter)
    ensures forall i :: 0 <= i < |users| && UserMatches(users[i], query, roleFilter, statusFilter) ==> users[i] in r
    ensures multiset(r) <= multiset(users)
    ensures forall i :: 0 <= i < |users| && UserMatches(users[i], query, roleFilter, statusFilter) ==> multiset(r)[users[i]] == multiset(users)[users[i]]
  {
    var keep := (u: ManagedUser) => UserMatches(u, query, roleFilter, statusFilter);
    FilterIsSubsequence(users, keep);
    FilterMultiset(users, keep);
    Filter(users, keep)
  }

  /** With an empty query and both filters on `all`, every user is listed, in order. */
  lemma EmptySearchListsAll(users: seq<ManagedUser>)
    ensures FilterUsers(users, "", "all", "all") == users
  {
    forall i | 0 <= i < |users| ensures UserMatches(users[i], "", "all", "all") {
      MatchesEmptyTerm(users[i].name);
    }
    FilterAll(users, (u: ManagedUser) => UserMatches(u, "", "all", "all"));
  }

  /** The role choices of the add-user form and of the role filter (besides `all`). */
  const RoleOptions: seq<string> := ["Top Management", "Project Owner", "Project Manager", "Project Officer"]

  const StatusOptions: seq<string> := ["Active", "Inactive"]

  /** Every offered role is a key of the function's role map; System Admin is not offered. */
  lemma RoleOptionsAreRoleMapKeys()
    ensures forall i :: 0 <= i < |RoleOptions| ==> CreateUser.RoleMap(RoleOptions[i]).Some?
    ensures "System Admin" !in RoleOptions
    ensures CreateUser.RoleMap("System Admin").Some?
  {
  }

  /** Every user of the table carries an offered role and an offered status. */
  lemma DummyUsersUseOptions()
    ensures forall i :: 0 <= i < |DummyUsers| ==> DummyUsers[i].role in RoleOptions && DummyUsers[i].status in StatusOptions
  {
  }

  /** The add-user form. */
  datatype NewUser = NewUser(name: string, email: string, role: string, phone: string, country: string, status: string)

  const EmptyNewUser := NewUser("", "", "", "", "Ghana", "Active")

  /** The page's state. The table is the fixed list; nothing the page does changes it. */
  class UserManagementPage {
    var searchQuery: string
    var roleFilter: string
    var statusFilter: string
    var isDialogOpen: bool
    var newUser: NewUser

    constructor ()
      ensures searchQuery == "" && roleFilter == "all" && statusFilter == "all"
      ensures !isDialogOpen && newUser == EmptyNewUser
    {
      searchQuery, roleFilter, statusFilter := "", "all", "all";
      isDialogOpen, newUser := false, EmptyNewUser;
    }

    function Shown(): (r: seq<ManagedUser>)
      reads this
      ensures IsSubsequence(r, DummyUsers)
    {
      FilterUsers(DummyUsers, searchQuery, roleFilter, statusFilter)
    }

    /** `handleAddUser`: the dialog closes and the form resets; no user is added anywhere. */
    method HandleAddUser()
      modifies this
      ensures newUser == EmptyNewUser && !isDialogOpen
      ensures searchQuery == old(searchQuery) && roleFilter == old(roleFilter) && statusFilter == old(statusFilter)
      ensures Shown() == old(Shown())
    {
      isDialogOpen := false;
      newUser := EmptyNewUser;
    }
  }
}
