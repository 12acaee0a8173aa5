/** The users page: the user search, the active/inactive/admin cards, the row
    actions, and the new-user dialog with its permission switches. */
module Users {
  import opened Text
  import opened Listing

  datatype UserRecord = UserRecord(
    id: string, name: string, email: string, role: string,
    isActive: bool, lastLogin: string, permissions: seq<string>)

  predicate UserMatches(u: UserRecord, term: string)
  {
    FoldContains(u.name, term) || FoldContains(u.email, term)
  }

  /** `filteredUsers`. */
  function FilterUsers(users: seq<UserRecord>, term: string): (r: seq<UserRecord>)
    ensures forall u :: u in r <==> u in users && (FoldContains(u.name, term) || FoldContains(u.email, term))
    ensures IsSubseq(r, users)
    ensures |r| == Count(users, (u: UserRecord) => UserMatches(u, term))
    ensures (forall u :: u in users ==> UserMatches(u, term)) ==> r == users
  {
    Filter(users, (u: UserRecord) => UserMatches(u, term))
  }

  /** An empty search lists every user. */
  lemma EmptySearchListsEveryUser(users: seq<UserRecord>)
    ensures FilterUsers(users, "") == users
  {
    forall u | u in users
      ensures UserMatches(u, "")
    {
      FoldContainsEmpty(u.name);
    }
  }

  function ActiveCount(users: seq<UserRecord>): nat
  {
    Count(users, (u: UserRecord) => u.isActive)
  }

  function InactiveCount(users: seq<UserRecord>): nat
  {
    Count(users, (u: UserRecord) => !u.isActive)
  }

  /** The "Activos" and "Inactivos" cards add up to "Total Usuarios". */
  lemma ActivePlusInactive(users: seq<UserRecord>)
    ensures ActiveCount(users) + InactiveCount(users) == |users|
  {
    CountComplement(users, (u: UserRecord) => u.isActive, (u: UserRecord) => !u.isActive);
  }

  function AdminCount(users: seq<UserRecord>): (n: nat)
    ensures n <= |users|
  {
    Count(users, (u: UserRecord) => u.role == "admin")
  }

  datatype UserAction = Edit | Permissions | Delete

  /** The buttons of a user row: administrators cannot be deleted. */
  function RowActions(u: UserRecord): (r: seq<UserAction>)
    ensures |r| == if u.role != "admin" then 3 else 2
    ensures r[..2] == [Edit, Permissions]
    ensures Delete in r <==> u.role != "admin"
  {
    [Edit, Permissions] + (if u.role != "admin" then [Delete] else [])
  }

  /** Over the whole user list every row but the administrators' offers a
      delete button, so the "Administradores" card counts exactly the rows
      without one. The table shows the whole list only with an empty search;
      see `ListedDeleteRowsWithinCards`. */
  lemma DeletableRowsAreNonAdmins(users: seq<UserRecord>)
    ensures Count(users, (u: UserRecord) => Delete in RowActions(u)) + AdminCount(users) == |users|
  {
    CountComplement(users, (u: UserRecord) => Delete in RowActions(u), (u: UserRecord) => u.role == "admin");
  }

  /** The switches of the dialog, in display order. */
  const PermissionKeys: seq<string> := ["pos", "inventory", "billing", "finances", "users", "reports", "settings"]

  datatype NewUserForm = NewUserForm(name: string, email: string, role: string, permissions: map<string, bool>)

  /** The form the dialog opens with and is reset to. */
  function EmptyForm(): (f: NewUserForm)
    ensures f.name == "" && f.email == "" && f.role == "cashier"
    ensures f.permissions.Keys == set k | k in PermissionKeys
    ensures forall k :: k in f.permissions ==> !f.permissions[k]
  {
    NewUserForm("", "", "cashier", map k | k in PermissionKeys :: false)
  }

  /** `handlePermissionChange(k, v)`: switch `k` takes `v`; nothing else moves. */
  function SetPermission(form: NewUserForm, k: string, v: bool): (r: NewUserForm)
    ensures r.name == form.name && r.email == form.email && r.role == form.role
    ensures r.permissions.Keys == form.permissions.Keys + {k}
    ensures k in r.permissions && r.permissions[k] == v
    ensures forall j :: j in form.permissions && j != k ==> r.permissions[j] == form.permissions[j]
  {
    form.(permissions := form.permissions[k := v])
  }

  /** Flipping a switch and flipping it back restores the form. */
  lemma PermissionToggleRestores(form: NewUserForm, k: string, v: bool)
    requires k in form.permissions
    ensures SetPermission(SetPermission(form, k, v), k, form.permissions[k]) == form
  {
    var r := SetPermission(SetPermission(form, k, v), k, form.permissions[k]);
    assert r.permissions == form.permissions;
  }

  /** Changing two different switches gives the same form in either order. */
  lemma PermissionChangesCommute(form: NewUserForm, k1: string, v1: bool, k2: string, v2: bool)
    requires k1 != k2
    ensures SetPermission(SetPermission(form, k1, v1), k2, v2) == SetPermission(SetPermission(form, k2, v2), k1, v1)
  {
    var a := SetPermission(SetPermission(form, k1, v1), k2, v2);
    var b := SetPermission(SetPermission(form, k2, v2), k1, v1);
    assert a.permissions == b.permissions;
  }

  /** The parts of the page state the dialog touches. */
  datatype UsersPage = UsersPage(search: string, dialogOpen: bool, form: NewUserForm)

  /** `handleCreateUser`: closes the dialog and resets the form; the user list
      itself does not change. */
  function CreateUser(page: UsersPage): (r: UsersPage)
    ensures r.search == page.search
    ensures !r.dialogOpen
    ensures r.form.name == "" && r.form.email == "" && r.form.role == "cashier"
    ensures r.form.permissions.Keys == set k | k in PermissionKeys
    ensures forall k :: k in r.form.permissions ==> !r.form.permissions[k]
  {
    page.(dialogOpen := false, form := EmptyForm())
  }

  /** Whatever was entered, creating a user leaves the dialog as it first opened. */
  lemma CreateUserForgetsEntries(page: UsersPage, k: string, v: bool)
    ensures CreateUser(page.(form := SetPermission(page.form, k, v))) == CreateUser(page)
  {
  }

  /** The table renders the searched users while the cards count every user:
      the listed delete buttons and the "Administradores" card together never
      exceed "Total Usuarios", and equal it with an empty search. */
  lemma ListedDeleteRowsWithinCards(users: seq<UserRecord>, term: string)
    ensures Count(FilterUsers(users, term), (u: UserRecord) => Delete in RowActions(u)) + AdminCount(users) <= |users|
    ensures term == "" ==>
              Count(FilterUsers(users, term), (u: UserRecord) => Delete in RowActions(u)) + AdminCount(users) == |users|
  {
    DeletableRowsAreNonAdmins(users);
    CountOfFilter(users, (u: UserRecord) => UserMatches(u, term), (u: UserRecord) => Delete in RowActions(u));
    if term == "" {
      EmptySearchListsEveryUser(users);
    }
  }
}
