/** ProfileFragment.java: the profile form's guard chain and the choice of
    fields to write, and the password dialog's guard chain followed by
    reauthentication and update. Every input is trimmed by Java's `trim()`
    before these decisions. */
module ProfileScreen {
  import opened Common
  import ChangePassword

  // ---------------------------------------------------------------------
  // Profile form

  /** What `updateProfile` does with the trimmed username and e-mail. */
  datatype ProfileUpdate =
    | UsernameRequired
    | EmailRequired
    | NotSignedIn
    /** `userDoc.update(...)` on `users/uid` with these fields. */
    | WriteFields(uid: string, fields: map<string, string>)

  /** The signed-in user: uid and (nullable) auth e-mail. */
  datatype AuthUser = AuthUser(uid: string, email: Option<string>)

  function DecideProfileUpdate(username: string, email: string, user: Option<AuthUser>): (d: ProfileUpdate)
    ensures d == UsernameRequired <==> username == ""
    ensures d == EmailRequired <==> username != "" && email == ""
    ensures d == NotSignedIn <==> username != "" && email != "" && user.None?
    ensures d.WriteFields? <==> username != "" && email != "" && user.Some?
    ensures d.WriteFields? ==> d.uid == user.value.uid
    ensures d.WriteFields? ==> "name" in d.fields && d.fields["name"] == username
    ensures d.WriteFields? ==>
      ("email" in d.fields <==> user.value.email != Some(email))
    ensures d.WriteFields? && "email" in d.fields ==> d.fields["email"] == email
    ensures d.WriteFields? ==> d.fields.Keys <= {"name", "email"}
  {
    if username == "" then UsernameRequired
    else if email == "" then EmailRequired
    else if user.None? then NotSignedIn
    else if user.value.email == Some(email) then WriteFields(user.value.uid, map["name" := username])
    else WriteFields(user.value.uid, map["name" := username, "email" := email])
  }

  /** `updateProfile` on the raw field texts. */
  function UpdateProfile(usernameRaw: string, emailRaw: string, user: Option<AuthUser>): ProfileUpdate
  {
    DecideProfileUpdate(JavaTrim(usernameRaw), JavaTrim(emailRaw), user)
  }

  /** Blanks around the username or the e-mail never reach the store. */
  lemma WrittenFieldsAreTrimmed(usernameRaw: string, emailRaw: string, user: Option<AuthUser>)
    ensures var d := UpdateProfile(usernameRaw, emailRaw, user);
      d.WriteFields? ==>
        (d.fields["name"] == JavaTrim(usernameRaw) && d.fields["name"] != ""
         && ("email" in d.fields ==> d.fields["email"] == JavaTrim(emailRaw)))
  {
  }

  // ---------------------------------------------------------------------
  // Password dialog

  /** The first problem the password dialog reports. */
  datatype PasswordProblem = CurrentMissing | NewMissing | NewTooShort | Mismatch

  /** The dialog's checks, in order, stopping at the first failure; the
      same chain also appears in the other side of SettingsFragment.java. */
  function PasswordDialogCheck(current: string, newPassword: string, confirm: string): (r: Option<PasswordProblem>)
    ensures r.None? <==> current != "" && newPassword != "" && |newPassword| >= 6 && newPassword == confirm
    ensures r == Some(CurrentMissing) <==> current == ""
    ensures r == Some(NewMissing) <==> current != "" && newPassword == ""
    ensures r == Some(NewTooShort) <==> current != "" && 0 < |newPassword| < 6
    ensures r == Some(Mismatch) <==> current != "" && |newPassword| >= 6 && newPassword != confirm
  {
    if current == "" then Some(CurrentMissing)
    else if newPassword == "" then Some(NewMissing)
    else if |newPassword| < 6 then Some(NewTooShort)
    else if newPassword != confirm then Some(Mismatch)
    else None
  }

  /** The text set on the failing field. */
  function ProblemText(p: PasswordProblem): string
  {
    match p
    case CurrentMissing => "Current password is required"
    case NewMissing => "New password is required"
    case NewTooShort => "Password must be at least 6 characters"
    case Mismatch => "Passwords do not match"
  }

  /** The outcome of confirming the dialog: the field error, or the auth
      calls issued (the signed-in user's e-mail and each call's result
      given) and whether the dialog was dismissed. */
  datatype PasswordOutcome =
    | FieldError(problem: PasswordProblem)
    | Submitted(calls: seq<ChangePassword.AuthCall>, dismissed: bool)

  function ConfirmPasswordDialog(currentRaw: string, newRaw: string, confirmRaw: string,
                                 email: Option<string>, reauthOk: bool, updateOk: bool): (r: PasswordOutcome)
    ensures r.FieldError? <==> PasswordDialogCheck(JavaTrim(currentRaw), JavaTrim(newRaw), JavaTrim(confirmRaw)).Some?
    ensures r.Submitted? ==>
      r.calls == ChangePassword.AuthCalls(email, JavaTrim(currentRaw), JavaTrim(newRaw),
                                          if reauthOk then ChangePassword.AuthOk else ChangePassword.AuthFailed(None))
    ensures r.Submitted? ==> (r.dismissed <==> email.Some? && reauthOk && updateOk)
  {
    var current, newPassword, confirm := JavaTrim(currentRaw), JavaTrim(newRaw), JavaTrim(confirmRaw);
    var check := PasswordDialogCheck(current, newPassword, confirm);
    if check.Some? then FieldError(check.value)
    else
      var reauth := if reauthOk then ChangePassword.AuthOk else ChangePassword.AuthFailed(None);
      Submitted(ChangePassword.AuthCalls(email, current, newPassword, reauth), email.Some? && reauthOk && updateOk)
  }

  /** The password is updated only after a successful reauthentication, and
      the dialog is dismissed only when the update went through. */
  lemma PasswordChangedOnlyAfterReauth(currentRaw: string, newRaw: string, confirmRaw: string,
                                       email: Option<string>, reauthOk: bool, updateOk: bool)
    ensures var r := ConfirmPasswordDialog(currentRaw, newRaw, confirmRaw, email, reauthOk, updateOk);
      r.Submitted? ==>
        (forall i :: 0 <= i < |r.calls| && r.calls[i].UpdatePassword? ==> i == 1 && reauthOk)
        && (r.dismissed ==> |r.calls| == 2 && r.calls[1] == ChangePassword.UpdatePassword(JavaTrim(newRaw)))
  {
    var r := ConfirmPasswordDialog(currentRaw, newRaw, confirmRaw, email, reauthOk, updateOk);
    if r.Submitted? {
      var reauth := if reauthOk then ChangePassword.AuthOk else ChangePassword.AuthFailed(None);
      ChangePassword.UpdateOnlyAfterReauth(email, JavaTrim(currentRaw), JavaTrim(newRaw), reauth);
    }
  }
}
