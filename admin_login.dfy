/** The admin login page (src/pages/AdminLoginPage.tsx): the form's gate and
    the effect that sends an admin session to the dashboard. */
module AdminLogin {
  import opened Model
  import opened Strings
  import opened Auth

  /** The page's state. */
  class AdminLoginPage {
    var username: string
    var password: string
    var isLoading: bool
    const session: Session

    /** The username field is pre-filled with `admin`. */
    constructor (s: Session)
      ensures session == s && username == "admin" && password == "" && !isLoading
    {
      session := s;
      username, password := "admin", "";
      isLoading := false;
    }

    method SetFields(name: string, secret: string)
      modifies this
      ensures username == name && password == secret && isLoading == old(isLoading)
    {
      username, password := name, secret;
    }

    /** The effect on `isAdmin`: an admin session goes to the dashboard. */
    method RedirectEffect() returns (o: Outcome)
      ensures session.isAdmin ==> o == Navigate(AdminDashboard)
      ensures !session.isAdmin ==> o == Done
    {
      if session.isAdmin {
        o := Navigate(AdminDashboard);
      } else {
        o := Done;
      }
    }

    /** `handleSubmit`, its delay collapsed. A username or password that is
        blank once trimmed is refused before any login. Otherwise the password,
        untrimmed, is checked as an admin login; the page moves on only when
        the check passed and the username is exactly `admin`. */
    method HandleSubmit() returns (o: Outcome)
      modifies this, session, session.store
      ensures username == old(username) && password == old(password) && !isLoading
      ensures Trim(old(username)) == "" || Trim(old(password)) == "" ==>
        o == Rejected(MissingCredentials)
        && session.isAuthenticated == old(session.isAuthenticated) && session.isAdmin == old(session.isAdmin)
        && session.store.State() == old(session.store.State())
      ensures Trim(old(username)) != "" && Trim(old(password)) != "" ==>
        var ok := old(password) == LoginPassword(old(session.store.State()), true);
        o == (if ok && old(username) == "admin" then Navigate(AdminDashboard) else Rejected(LoginFailed))
        && (ok ==> session.isAuthenticated && session.isAdmin
                   && session.store.State() == old(session.store.State()).(auth := session.store.auth))
        && (!ok ==> session.isAuthenticated == old(session.isAuthenticated) && session.isAdmin == old(session.isAdmin)
                    && session.store.State() == old(session.store.State()))
      ensures old(session.Mirrored()) ==> session.Mirrored()
    {
      if Trim(username) == "" || Trim(password) == "" {
        isLoading := false;
        return Rejected(MissingCredentials);
      }
      isLoading := true;
      var success := session.Login(password, true);
      isLoading := false;
      if success && username == "admin" {
        o := Navigate(AdminDashboard);
      } else {
        o := Rejected(LoginFailed);
      }
    }

    /** A submission followed by the redirect effect, which re-runs only
        when `isAdmin` changed. From a non-admin session the admin password
        reaches the dashboard whatever non-blank username was typed, because
        the login alone sets `isAdmin`; a wrong password never does. */
    method SubmitAndRedirect() returns (o: Outcome)
      modifies this, session, session.store
      ensures Trim(username) == "" || Trim(password) == "" ==> o == Rejected(MissingCredentials)
      ensures Trim(username) != "" && Trim(password) != "" ==>
        var ok := password == LoginPassword(old(session.store.State()), true);
        (ok && !old(session.isAdmin) ==> o == Navigate(AdminDashboard))
        && (ok && old(session.isAdmin) ==> (o == Navigate(AdminDashboard) <==> username == "admin"))
        && (!ok ==> o == Rejected(LoginFailed))
    {
      var wasAdmin := session.isAdmin;
      o := HandleSubmit();
      if session.isAdmin != wasAdmin {
        var r := RedirectEffect();
        if r.Navigate? {
          o := r;
        }
      }
    }

    /** The link back to the visitor login. */
    method HandleBackToUserLogin() returns (o: Outcome)
      ensures o == Navigate(Gate)
    {
      o := Navigate(Gate);
    }
  }
}
