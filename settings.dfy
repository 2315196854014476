/** The settings tab of the admin dashboard (src/components/AdminSettings.tsx):
    the two password-change forms and the cache clearing. */
module Settings {
  import opened Model
  import opened Auth

  /** The checks both forms run before anything else, in their order: every
      field filled in, the new password confirmed, and at least six long. */
  function ValidateForm(current: string, newPassword: string, confirm: string): Option<Reason> {
    if current == "" || newPassword == "" || confirm == "" then Some(MissingPasswordField)
    else if newPassword != confirm then Some(PasswordMismatch)
    else if |newPassword| < 6 then Some(PasswordTooShort)
    else None
  }

  /** A form passes iff its fields are filled, the new password is confirmed
      and it has at least six characters; a failing form reports the first
      check it fails. */
  lemma {:induction false} ValidateFormSpec(current: string, newPassword: string, confirm: string)
    ensures ValidateForm(current, newPassword, confirm).None? <==>
      current != "" && newPassword == confirm && |newPassword| >= 6
    ensures ValidateForm(current, newPassword, confirm) == Some(PasswordMismatch) ==>
      current != "" && newPassword != "" && confirm != ""
    ensures ValidateForm(current, newPassword, confirm) == Some(PasswordTooShort) ==>
      current != "" && newPassword == confirm && 0 < |newPassword| < 6
  {
  }

  /** The store after a confirmed clear: only the catalog and the accounts
      are kept. */
  function Cleared(s: StoreState): (r: StoreState)
    ensures r.mediaItems == s.mediaItems && r.admins == s.admins
  {
    StoreState(s.mediaItems, None, s.admins, None, None, None, None)
  }

  /** After a clear every other key is absent, so both logins are back to
      their default passwords; clearing twice is clearing once. */
  lemma {:induction false} ClearedSpec(s: StoreState)
    ensures Cleared(s).adBanners.None? && Cleared(s).auth.None? && Cleared(s).visits.None?
    ensures Cleared(s).frontendPassword.None? && Cleared(s).adminPassword.None?
    ensures LoginPassword(Cleared(s), false) == DefaultPassword
    ensures LoginPassword(Cleared(s), true) == AdminDefaultPassword
    ensures Cleared(Cleared(s)) == Cleared(s)
  {
  }

  /** The tab's state: the three password fields and the busy flag. */
  class AdminSettings {
    var currentPassword: string
    var newPassword: string
    var confirmPassword: string
    var isChangingPassword: bool
    const session: Session

    constructor (s: Session)
      ensures session == s && currentPassword == "" && newPassword == "" && confirmPassword == ""
      ensures !isChangingPassword
    {
      session := s;
      currentPassword, newPassword, confirmPassword := "", "", "";
      isChangingPassword := false;
    }

    /** Typing into the three fields. */
    method SetFields(current: string, newValue: string, confirm: string)
      modifies this
      ensures currentPassword == current && newPassword == newValue && confirmPassword == confirm
      ensures isChangingPassword == old(isChangingPassword)
    {
      currentPassword, newPassword, confirmPassword := current, newValue, confirm;
    }

    /** The reset button: the three fields are emptied. */
    method ResetFields()
      modifies this
      ensures currentPassword == "" && newPassword == "" && confirmPassword == ""
      ensures isChangingPassword == old(isChangingPassword)
    {
      currentPassword, newPassword, confirmPassword := "", "", "";
    }

    /** `handleChangeFrontendPassword`, its delay collapsed: a form that fails
        a check changes nothing; otherwise the session's `changePassword`
        decides, and the form is emptied only when it succeeds. */
    method HandleChangeFrontendPassword() returns (o: Outcome)
      requires !isChangingPassword
      modifies this, session.store
      ensures var v := ValidateForm(old(currentPassword), old(newPassword), old(confirmPassword));
        var ok := old(currentPassword) == EffectivePassword(old(session.store.frontendPassword), DefaultPassword);
        if v.Some? then
          o == Rejected(v.value) && session.store.State() == old(session.store.State())
          && currentPassword == old(currentPassword) && newPassword == old(newPassword)
          && confirmPassword == old(confirmPassword)
        else if ok then
          o == Done
          && session.store.State() == old(session.store.State()).(frontendPassword := Some(old(newPassword)))
          && currentPassword == "" && newPassword == "" && confirmPassword == ""
        else
          o == Rejected(WrongPassword) && session.store.State() == old(session.store.State())
          && currentPassword == old(currentPassword) && newPassword == old(newPassword)
          && confirmPassword == old(confirmPassword)
      ensures !isChangingPassword
    {
      if currentPassword == "" || newPassword == "" || confirmPassword == "" {
        return Rejected(MissingPasswordField);
      }
      if newPassword != confirmPassword {
        return Rejected(PasswordMismatch);
      }
      if |newPassword| < 6 {
        return Rejected(PasswordTooShort);
      }
      isChangingPassword := true;
      var success := session.ChangePassword(currentPassword, newPassword);
      if success {
        currentPassword, newPassword, confirmPassword := "", "", "";
        o := Done;
      } else {
        o := Rejected(WrongPassword);
      }
      isChangingPassword := false;
    }

    /** `handleChangeAdminPassword`, its delay collapsed: the same checks,
        then the current password must be the stored admin password (or
        `admin123` when none is stored); on success it is replaced and the
        form emptied. */
    method HandleChangeAdminPassword() returns (o: Outcome)
      requires !isChangingPassword
      modifies this, session.store
      ensures var v := ValidateForm(old(currentPassword), old(newPassword), old(confirmPassword));
        var ok := old(currentPassword) == EffectivePassword(old(session.store.adminPassword), AdminDefaultPassword);
        if v.Some? then
          o == Rejected(v.value) && session.store.State() == old(session.store.State())
          && currentPassword == old(currentPassword) && newPassword == old(newPassword)
          && confirmPassword == old(confirmPassword)
        else if ok then
          o == Done
          && session.store.State() == old(session.store.State()).(adminPassword := Some(old(newPassword)))
          && currentPassword == "" && newPassword == "" && confirmPassword == ""
        else
          o == Rejected(WrongPassword) && session.store.State() == old(session.store.State())
          && currentPassword == old(currentPassword) && newPassword == old(newPassword)
          && confirmPassword == old(confirmPassword)
      ensures !isChangingPassword
    {
      if currentPassword == "" || newPassword == "" || confirmPassword == "" {
        return Rejected(MissingPasswordField);
      }
      if newPassword != confirmPassword {
        return Rejected(PasswordMismatch);
      }
      if |newPassword| < 6 {
        return Rejected(PasswordTooShort);
      }
      var stored := if Truthy(session.store.adminPassword) then session.store.adminPassword.value else AdminDefaultPassword;
      if currentPassword != stored {
        return Rejected(WrongPassword);
      }
      isChangingPassword := true;
      session.store.adminPassword := Some(newPassword);
      currentPassword, newPassword, confirmPassword := "", "", "";
      isChangingPassword := false;
      o := Done;
    }

    /** `handleClearCache` (its button, like the others, is disabled while a
        change is in progress): when confirmed, the catalog and the accounts are
        saved, the store is cleared, and the two are written back if they
        were present. */
    method HandleClearCache(confirmed: bool) returns (o: Outcome)
      modifies session.store
      ensures confirmed ==> o == Done && session.store.State() == Cleared(old(session.store.State()))
      ensures !confirmed ==> o == Rejected(Cancelled) && session.store.State() == old(session.store.State())
    {
      if !confirmed {
        return Rejected(Cancelled);
      }
      var store := session.store;
      var mediaItems := store.mediaItems;
      var admins := store.admins;
      store.mediaItems, store.adBanners, store.admins, store.auth := None, None, None, None;
      store.visits, store.frontendPassword, store.adminPassword := None, None, None;
      if mediaItems.Some? {
        store.mediaItems := mediaItems;
      }
      if admins.Some? {
        store.admins := admins;
      }
      o := Done;
    }
  }
}
