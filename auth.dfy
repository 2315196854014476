/** The session context of the gallery (src/contexts/authContext.ts): two
    flags, `isAuthenticated` and `isAdmin`, the password checks against the
    store, and the effect that mirrors the flags into the `auth` key. */
module Auth {
  import opened Model

  const DefaultPassword: string := "123456"
  const AdminDefaultPassword: string := "admin123"

  /** `localStorage.getItem(key) || fallback`: the stored password unless it is
      absent or empty. */
  function EffectivePassword(stored: Option<string>, fallback: string): (p: string)
    ensures Truthy(stored) ==> p == stored.value
    ensures !Truthy(stored) ==> p == fallback
  {
    if Truthy(stored) then stored.value else fallback
  }

  /** The password a login is checked against. */
  function LoginPassword(s: StoreState, adminLogin: bool): string {
    if adminLogin then EffectivePassword(s.adminPassword, AdminDefaultPassword)
    else EffectivePassword(s.frontendPassword, DefaultPassword)
  }

  /** Neither the stored nor the fallback password is ever empty, so an empty
      password never logs anyone in. */
  lemma {:induction false} LoginPasswordNonEmpty(s: StoreState, adminLogin: bool)
    ensures LoginPassword(s, adminLogin) != ""
  {
  }

  /** Storing an empty password brings the default back. */
  lemma {:induction false} EmptyStoredPasswordFallsBack(fallback: string)
    ensures EffectivePassword(Some(""), fallback) == fallback
    ensures EffectivePassword(None, fallback) == fallback
  {
  }

  /** The provider's state: the two flags and the store it reads and writes. */
  class Session {
    var isAuthenticated: bool
    var isAdmin: bool
    const store: Store

    /** The `auth` key holds the current flags. */
    predicate Mirrored()
      reads this, store
    {
      store.auth == Some(AuthRecord(isAuthenticated, isAdmin))
    }

    /** Mounting the provider: the flags start false, the restore effect copies
        a saved `auth` record, and the mirror effect writes the flags back. */
    constructor (s: Store)
      modifies s
      ensures store == s
      ensures old(s.auth).Some? ==>
        isAuthenticated == old(s.auth).value.isAuthenticated && isAdmin == old(s.auth).value.isAdmin
      ensures old(s.auth).None? ==> !isAuthenticated && !isAdmin
      ensures Mirrored()
      ensures s.State() == old(s.State()).(auth := s.auth)
    {
      store := s;
      isAuthenticated, isAdmin := false, false;
      new;
      var saved := s.auth;
      s.auth := Some(AuthRecord(false, false));
      if saved.Some? {
        isAuthenticated, isAdmin := saved.value.isAuthenticated, saved.value.isAdmin;
        s.auth := Some(AuthRecord(isAuthenticated, isAdmin));
      }
    }

    /** Sets both flags; the mirror effect runs only when one of them changed. */
    method Commit(authenticated: bool, admin: bool)
      modifies this, store
      ensures isAuthenticated == authenticated && isAdmin == admin
      ensures store.auth == if (authenticated, admin) != old((isAuthenticated, isAdmin))
                            then Some(AuthRecord(authenticated, admin)) else old(store.auth)
      ensures store.State() == old(store.State()).(auth := store.auth)
      ensures old(Mirrored()) ==> Mirrored()
    {
      var changed := authenticated != isAuthenticated || admin != isAdmin;
      isAuthenticated, isAdmin := authenticated, admin;
      if changed {
        store.auth := Some(AuthRecord(authenticated, admin));
      }
    }

    /** `logout`: both flags become false. */
    method Logout()
      modifies this, store
      ensures !isAuthenticated && !isAdmin
      ensures store.State() == old(store.State()).(auth := store.auth)
      ensures old(Mirrored()) ==> Mirrored()
    {
      Commit(false, false);
    }

    /** `login(password, adminLogin)`: succeeds iff the password equals the
        stored password of that kind (or its default); success sets the flags,
        failure changes nothing. */
    method Login(password: string, adminLogin: bool) returns (ok: bool)
      modifies this, store
      ensures ok <==> password == LoginPassword(old(store.State()), adminLogin)
      ensures ok ==> isAuthenticated && isAdmin == adminLogin
      ensures ok ==> store.State() == old(store.State()).(auth := store.auth)
      ensures !ok ==> isAuthenticated == old(isAuthenticated) && isAdmin == old(isAdmin)
      ensures !ok ==> store.State() == old(store.State())
      ensures old(Mirrored()) ==> Mirrored()
    {
      var stored := if adminLogin then EffectivePassword(store.adminPassword, AdminDefaultPassword)
                    else EffectivePassword(store.frontendPassword, DefaultPassword);
      if password == stored {
        Commit(true, adminLogin);
        ok := true;
      } else {
        ok := false;
      }
    }

    /** `changePassword(current, new)`: succeeds iff `current` is the front-end
        password (or its default); only the `frontendPassword` key changes. */
    method ChangePassword(current: string, newPassword: string) returns (ok: bool)
      modifies store
      ensures ok <==> current == EffectivePassword(old(store.frontendPassword), DefaultPassword)
      ensures ok ==> store.State() == old(store.State()).(frontendPassword := Some(newPassword))
      ensures !ok ==> store.State() == old(store.State())
    {
      var stored := EffectivePassword(store.frontendPassword, DefaultPassword);
      if current == stored {
        store.frontendPassword := Some(newPassword);
        ok := true;
      } else {
        ok := false;
      }
    }
  }
}
