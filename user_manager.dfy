/** The admin account table (src/components/AdminUserManager.tsx): add, edit
    and delete on the list held in the `admins` key, each guarded so that
    usernames stay unique, a superadmin is never removed or demoted, and the
    list never becomes empty. */
module Users {
  import opened Model
  import opened Strings
  import opened Seqs

  // ---------------------------------------------------------------------
  // The account invariants

  predicate UniqueIds(users: seq<AdminUser>) {
    forall i, j :: 0 <= i < j < |users| ==> users[i].id != users[j].id
  }

  predicate UniqueUsernames(users: seq<AdminUser>) {
    forall i, j :: 0 <= i < j < |users| ==> users[i].username != users[j].username
  }

  predicate HasSuperadmin(users: seq<AdminUser>) {
    exists i :: 0 <= i < |users| && users[i].role == Superadmin
  }

  /** What every operation of the manager keeps: at least one account, no two
      accounts with the same id or username, and a superadmin among them. */
  predicate ValidAccounts(users: seq<AdminUser>) {
    |users| > 0 && UniqueIds(users) && UniqueUsernames(users) && HasSuperadmin(users)
  }

  // ---------------------------------------------------------------------
  // The array operations the handlers use

  /** `users.find(u => u.id === id)`: the first account with that id. */
  function FindById(users: seq<AdminUser>, id: string): (r: Option<AdminUser>)
    ensures r.None? <==> forall i :: 0 <= i < |users| ==> users[i].id != id
    ensures r.Some? ==> exists i :: 0 <= i < |users| && users[i] == r.value && r.value.id == id
                                    && forall j :: 0 <= j < i ==> users[j].id != id
  {
    if users == [] then None
    else if users[0].id == id then Some(users[0])
    else
      var r := FindById(users[1..], id);
      if r.Some? then
        var i :| 0 <= i < |users[1..]| && users[1..][i] == r.value && r.value.id == id
                 && forall j :: 0 <= j < i ==> users[1..][j].id != id;
        assert users[i + 1] == r.value && forall j :: 0 <= j < i + 1 ==> users[j].id != id;
        r
      else r
  }

  /** With unique ids, the first account with an id is the only one. */
  lemma {:induction false} FindByIdUnique(users: seq<AdminUser>, id: string, k: nat)
    requires UniqueIds(users) && k < |users| && users[k].id == id
    ensures FindById(users, id) == Some(users[k])
  {
    var r := FindById(users, id);
    var i :| 0 <= i < |users| && users[i] == r.value && r.value.id == id
             && forall j :: 0 <= j < i ==> users[j].id != id;
    assert !(i < k) && !(k < i);
  }

  /** `users.some(u => u.username === name)`. */
  predicate UsernameTaken(users: seq<AdminUser>, name: string) {
    exists i :: 0 <= i < |users| && users[i].username == name
  }

  /** `users.some(u => u.username === name && u.id !== id)`. */
  predicate UsernameTakenByOther(users: seq<AdminUser>, name: string, id: string) {
    exists i :: 0 <= i < |users| && users[i].username == name && users[i].id != id
  }

  function OtherId(id: string): AdminUser -> bool { (u: AdminUser) => u.id != id }

  /** The id a new account gets: `admin-` followed by the clock in milliseconds. */
  function NewAdminId(now: nat): string {
    "admin-" + NatToString(now)
  }

  // ---------------------------------------------------------------------
  // Add

  /** `handleAddUser`: an empty or taken username is refused; otherwise one
      account is appended, with the chosen role or `editor`. */
  function AddUser(users: seq<AdminUser>, name: string, role: Option<Role>, id: string): (r: Result<seq<AdminUser>>)
    ensures r.Err? <==> name == "" || UsernameTaken(users, name)
    ensures r.Err? ==> r.reason == (if name == "" then MissingUsername else DuplicateUsername)
    ensures r.Ok? ==> |r.value| == |users| + 1 && r.value[..|users|] == users
    ensures r.Ok? ==> r.value[|users|] == AdminUser(id, name, if role.Some? then role.value else Editor)
  {
    if name == "" then Err(MissingUsername)
    else if UsernameTaken(users, name) then Err(DuplicateUsername)
    else Ok(users + [AdminUser(id, name, role.GetOr(Editor))])
  }

  /** A successful add keeps usernames unique, whatever the list held. */
  lemma {:induction false} AddKeepsUsernamesUnique(users: seq<AdminUser>, name: string, role: Option<Role>, id: string)
    requires UniqueUsernames(users)
    ensures AddUser(users, name, role, id).Ok? ==> UniqueUsernames(AddUser(users, name, role, id).value)
  {
    var r := AddUser(users, name, role, id);
    if r.Ok? {
      var l := r.value;
      forall i, j | 0 <= i < j < |l| ensures l[i].username != l[j].username {
        if j == |users| {
          assert l[i] == users[i];
        } else {
          assert l[i] == users[i] && l[j] == users[j];
        }
      }
    }
  }

  /** With an id no account has yet, a successful add keeps every invariant. */
  lemma {:induction false} AddKeepsValid(users: seq<AdminUser>, name: string, role: Option<Role>, id: string)
    requires ValidAccounts(users)
    requires forall i :: 0 <= i < |users| ==> users[i].id != id
    ensures AddUser(users, name, role, id).Ok? ==> ValidAccounts(AddUser(users, name, role, id).value)
  {
    AddKeepsUsernamesUnique(users, name, role, id);
    var r := AddUser(users, name, role, id);
    if r.Ok? {
      var l := r.value;
      var s :| 0 <= s < |users| && users[s].role == Superadmin;
      assert l[s] == users[s];
      forall i, j | 0 <= i < j < |l| ensures l[i].id != l[j].id {
        assert l[i] == users[i];
      }
    }
  }

  // ---------------------------------------------------------------------
  // Edit

  /** The role guard of `handleEditUser`: the first account with the edited id
      is a superadmin and the form does not keep the superadmin role. */
  predicate SuperadminLocked(users: seq<AdminUser>, id: string, role: Option<Role>) {
    var c := FindById(users, id);
    c.Some? && c.value.role == Superadmin && role != Some(Superadmin)
  }

  /** The `map` callback of `handleEditUser` for one account. */
  function EditEntry(u: AdminUser, id: string, name: string, role: Option<Role>, locked: bool): AdminUser {
    if u.id == id && !locked then
      u.(username := if name != "" then name else u.username, role := role.GetOr(u.role))
    else u
  }

  function EditAll(users: seq<AdminUser>, id: string, name: string, role: Option<Role>, locked: bool): (r: seq<AdminUser>)
    ensures |r| == |users|
    ensures forall i :: 0 <= i < |users| ==> r[i] == EditEntry(users[i], id, name, role, locked)
  {
    if users == [] then []
    else EditAll(users[..|users| - 1], id, name, role, locked) + [EditEntry(users[|users| - 1], id, name, role, locked)]
  }

  /** `handleEditUser`: refused without a target or a username, or when another
      account holds the username; otherwise the accounts with the edited id get
      the new username and role, unless the superadmin guard keeps them. */
  function EditUser(users: seq<AdminUser>, editId: Option<string>, name: Option<string>, role: Option<Role>)
    : (r: Result<seq<AdminUser>>)
    ensures r.Err? <==> !Truthy(editId) || !Truthy(name) || UsernameTakenByOther(users, name.value, editId.value)
    ensures r.Err? ==> r.reason == (if !Truthy(editId) || !Truthy(name) then MissingUsername else DuplicateUsername)
    ensures r.Ok? ==> |r.value| == |users|
  {
    if !Truthy(editId) || !Truthy(name) then Err(MissingUsername)
    else if UsernameTakenByOther(users, name.value, editId.value) then Err(DuplicateUsername)
    else Ok(EditAll(users, editId.value, name.value, role, SuperadminLocked(users, editId.value, role)))
  }

  /** An edit changes only the accounts with the edited id; those get the new
      username and role, or stay as they were when the guard fires. */
  lemma {:induction false} EditOnlyTarget(users: seq<AdminUser>, editId: Option<string>, name: Option<string>, role: Option<Role>)
    requires EditUser(users, editId, name, role).Ok?
    ensures var r := EditUser(users, editId, name, role).value;
      forall i :: 0 <= i < |users| ==>
        if users[i].id != editId.value || SuperadminLocked(users, editId.value, role) then r[i] == users[i]
        else r[i] == AdminUser(users[i].id, name.value, role.GetOr(users[i].role))
  {
  }

  /** With unique ids, an edit never takes the superadmin role away. */
  lemma {:induction false} EditKeepsSuperadmins(users: seq<AdminUser>, editId: Option<string>, name: Option<string>, role: Option<Role>)
    requires UniqueIds(users)
    requires EditUser(users, editId, name, role).Ok?
    ensures var r := EditUser(users, editId, name, role).value;
      forall i :: 0 <= i < |users| && users[i].role == Superadmin ==> r[i].role == Superadmin
  {
    var r := EditUser(users, editId, name, role).value;
    forall i | 0 <= i < |users| && users[i].role == Superadmin ensures r[i].role == Superadmin {
      if users[i].id == editId.value {
        FindByIdUnique(users, editId.value, i);
      }
    }
  }

  /** With unique ids, an accepted edit keeps usernames unique: the new name is
      held by no other account, and only one account is renamed. */
  lemma {:induction false} EditKeepsUsernamesUnique(users: seq<AdminUser>, editId: Option<string>, name: Option<string>,
                                                   role: Option<Role>)
    requires UniqueIds(users) && UniqueUsernames(users)
    requires EditUser(users, editId, name, role).Ok?
    ensures UniqueUsernames(EditUser(users, editId, name, role).value)
  {
    var id, n := editId.value, name.value;
    var locked := SuperadminLocked(users, id, role);
    var r := EditUser(users, editId, name, role).value;
    assert r == EditAll(users, id, n, role, locked);
    forall i, j | 0 <= i < j < |r| ensures r[i].username != r[j].username {
      var ei := users[i].id == id && !locked;
      var ej := users[j].id == id && !locked;
      if ei && ej {
        assert false;
      } else if ei {
        assert r[i].username == n && r[j] == users[j] && users[j].id != id;
        assert users[j].username != n;
      } else if ej {
        assert r[j].username == n && r[i] == users[i] && users[i].id != id;
        assert users[i].username != n;
      } else {
        assert r[i] == users[i] && r[j] == users[j];
      }
    }
  }

  /** An accepted edit keeps every account invariant: ids are untouched,
      usernames stay unique and no superadmin is demoted. */
  lemma {:induction false} EditKeepsValid(users: seq<AdminUser>, editId: Option<string>, name: Option<string>, role: Option<Role>)
    requires ValidAccounts(users)
    requires EditUser(users, editId, name, role).Ok?
    ensures ValidAccounts(EditUser(users, editId, name, role).value)
  {
    var r := EditUser(users, editId, name, role).value;
    assert UniqueUsernames(r) by {
      EditKeepsUsernamesUnique(users, editId, name, role);
    }
    assert HasSuperadmin(r) by {
      EditKeepsSuperadmins(users, editId, name, role);
      var s :| 0 <= s < |users| && users[s].role == Superadmin;
      assert r[s].role == Superadmin;
    }
    assert forall i :: 0 <= i < |r| ==> r[i].id == users[i].id;
  }

  // ---------------------------------------------------------------------
  // Delete

  /** `handleDeleteUser`: a superadmin target (judged by the first account with
      the id) is refused, so is any delete from a list of at most one account,
      and so is a dismissed confirmation; otherwise every account with the id
      is removed. */
  function DeleteUser(users: seq<AdminUser>, id: string, confirmed: bool): (r: Result<seq<AdminUser>>)
    ensures r.Err? <==> (FindById(users, id).Some? && FindById(users, id).value.role == Superadmin)
                        || |users| <= 1 || !confirmed
    ensures r.Err? ==> r.reason == (if FindById(users, id).Some? && FindById(users, id).value.role == Superadmin
                                    then SuperadminProtected
                                    else if |users| <= 1 then LastAccount else Cancelled)
    ensures r.Ok? ==> forall x :: x in r.value <==> x in users && x.id != id
    ensures r.Ok? ==> IsSubsequence(r.value, users)
  {
    var target := FindById(users, id);
    if target.Some? && target.value.role == Superadmin then Err(SuperadminProtected)
    else if |users| <= 1 then Err(LastAccount)
    else if !confirmed then Err(Cancelled)
    else
      FilterIsSubsequence(users, OtherId(id));
      assert forall x :: x in Filter(users, OtherId(id)) <==> x in users && x.id != id by {
        forall x { FilterMember(users, OtherId(id), x); }
      }
      Ok(Filter(users, OtherId(id)))
  }

  /** With unique ids, a delete removes at most one account and never a
      superadmin, so it keeps every account invariant. */
  lemma {:induction false} DeleteKeepsValid(users: seq<AdminUser>, id: string, confirmed: bool)
    requires ValidAccounts(users)
    ensures DeleteUser(users, id, confirmed).Ok? ==> ValidAccounts(DeleteUser(users, id, confirmed).value)
  {
    var r := DeleteUser(users, id, confirmed);
    if r.Ok? {
      var l := r.value;
      var s :| 0 <= s < |users| && users[s].role == Superadmin;
      if users[s].id == id {
        FindByIdUnique(users, id, s);
      }
      assert users[s] in l;
      DistinctFromSubsequence(l, users);
    }
  }

  /** A subsequence of a list with unique ids and usernames has them too. */
  lemma {:induction false} DistinctFromSubsequence(a: seq<AdminUser>, b: seq<AdminUser>)
    requires IsSubsequence(a, b) && UniqueIds(b) && UniqueUsernames(b)
    ensures UniqueIds(a) && UniqueUsernames(a)
  {
    if a != [] {
      var b' := b[..|b| - 1];
      assert UniqueIds(b') && UniqueUsernames(b');
      if IsSubsequence(a, b') {
        DistinctFromSubsequence(a, b');
      } else {
        var a' := a[..|a| - 1];
        DistinctFromSubsequence(a', b');
        SubsequenceMembers(a', b');
        forall i | 0 <= i < |a'| ensures a'[i].id != a[|a| - 1].id && a'[i].username != a[|a| - 1].username {
          var k :| 0 <= k < |b'| && b'[k] == a'[i];
        }
      }
    }
  }

  lemma {:induction false} SubsequenceMembers<T>(a: seq<T>, b: seq<T>)
    requires IsSubsequence(a, b)
    ensures forall i :: 0 <= i < |a| ==> a[i] in b
  {
    if a != [] {
      var b' := b[..|b| - 1];
      if IsSubsequence(a, b') {
        SubsequenceMembers(a, b');
      } else {
        SubsequenceMembers(a[..|a| - 1], b');
      }
    }
  }

  // ---------------------------------------------------------------------
  // The component

  /** The manager's state: its copy of the account list and the store it saves to. */
  class UserManager {
    var adminUsers: seq<AdminUser>
    const store: Store

    /** Mounting: `loadAdminData` copies the `admins` key when it is present. */
    constructor (s: Store)
      ensures store == s
      ensures adminUsers == if s.admins.Some? then s.admins.value else []
    {
      store := s;
      adminUsers := if s.admins.Some? then s.admins.value else [];
    }

    /** `saveAdminData` then `loadAdminData`: the key is written and read back. */
    method Save(users: seq<AdminUser>)
      modifies this, store
      ensures adminUsers == users
      ensures store.State() == old(store.State()).(admins := Some(users))
    {
      store.admins := Some(users);
      var saved := store.admins;
      if saved.Some? {
        adminUsers := saved.value;
      }
    }

    method HandleAddUser(name: string, role: Option<Role>, now: nat) returns (o: Outcome)
      modifies this, store
      ensures var r := AddUser(old(adminUsers), name, role, NewAdminId(now));
        if r.Err? then o == Rejected(r.reason) && adminUsers == old(adminUsers) && store.State() == old(store.State())
        else o == Done && adminUsers == r.value && store.State() == old(store.State()).(admins := Some(r.value))
    {
      if name == "" {
        return Rejected(MissingUsername);
      }
      if UsernameTaken(adminUsers, name) {
        return Rejected(DuplicateUsername);
      }
      var user := AdminUser(NewAdminId(now), name, if role.Some? then role.value else Editor);
      Save(adminUsers + [user]);
      o := Done;
    }

    /** The list is saved even when the superadmin guard kept the entry, which
        is reported as `SuperadminProtected`. */
    method HandleEditUser(editId: Option<string>, name: Option<string>, role: Option<Role>) returns (o: Outcome)
      modifies this, store
      ensures var r := EditUser(old(adminUsers), editId, name, role);
        if r.Err? then o == Rejected(r.reason) && adminUsers == old(adminUsers) && store.State() == old(store.State())
        else adminUsers == r.value && store.State() == old(store.State()).(admins := Some(r.value))
             && o == (if SuperadminLocked(old(adminUsers), editId.value, role) then Rejected(SuperadminProtected) else Done)
    {
      if !Truthy(editId) || !Truthy(name) {
        return Rejected(MissingUsername);
      }
      if UsernameTakenByOther(adminUsers, name.value, editId.value) {
        return Rejected(DuplicateUsername);
      }
      var locked := SuperadminLocked(adminUsers, editId.value, role);
      var updated := EditAll(adminUsers, editId.value, name.value, role, locked);
      Save(updated);
      o := if locked then Rejected(SuperadminProtected) else Done;
    }

    method HandleDeleteUser(id: string, confirmed: bool) returns (o: Outcome)
      modifies this, store
      ensures var r := DeleteUser(old(adminUsers), id, confirmed);
        if r.Err? then o == Rejected(r.reason) && adminUsers == old(adminUsers) && store.State() == old(store.State())
        else o == Done && adminUsers == r.value && store.State() == old(store.State()).(admins := Some(r.value))
    {
      var target := FindById(adminUsers, id);
      if target.Some? && target.value.role == Superadmin {
        return Rejected(SuperadminProtected);
      }
      if |adminUsers| <= 1 {
        return Rejected(LastAccount);
      }
      if !confirmed {
        return Rejected(Cancelled);
      }
      Save(Filter(adminUsers, OtherId(id)));
      o := Done;
    }
  }
}
