/** ChangePasswordDialog.kt: the three-field validation, the Kotlin copy of
    the password-strength message, the mapping of auth failures to field
    errors, and the reauthenticate-then-update sequence.

    Firebase Auth is an outcome per call; the call log records which calls
    the dialog issued, in order. String resources are named by a datatype. */
module ChangePassword {
  import opened Common
  import opened Register

  // ---------------------------------------------------------------------
  // Strength (the Kotlin copy)

  /** `validatePasswordStrength` (Kotlin): the same builder as registration,
      trimmed with Kotlin's `trim()`. */
  function ValidatePasswordStrengthKt(p: string): string
  {
    var errorList := KotlinTrim(StrengthErrors(p));
    if errorList != "" then Header + errorList else ""
  }

  /** Both trims see the same bullets, so the dialog reports exactly what the
      sign-up screen reports. */
  lemma SameStrengthMessage(p: string)
    ensures ValidatePasswordStrengthKt(p) == ValidatePasswordStrength(p)
  {
    TrimmedErrors(p, KotlinSpace);
    TrimmedErrors(p, JavaSpace);
  }

  // ---------------------------------------------------------------------
  // Field validation

  datatype Field = CurrentField | NewField | ConfirmField

  /** The messages shown under a field: string resources, or literal text. */
  datatype Msg =
    | CurrentPasswordRequired
    | NewPasswordRequired
    | ConfirmPasswordRequired
    | PasswordsDoNotMatch
    | UserNotAuthenticated
    | PasswordTooWeak
    | Text(text: string)

  /** The text shown under each of the three fields; None when hidden. */
  datatype FieldErrors = FieldErrors(current: Option<Msg>, newPassword: Option<Msg>, confirm: Option<Msg>)

  const NoErrors := FieldErrors(None, None, None)

  /** `showError` on one field. */
  function Show(e: FieldErrors, f: Field, m: Msg): (r: FieldErrors)
    ensures f == CurrentField ==> r == e.(current := Some(m))
    ensures f == NewField ==> r == e.(newPassword := Some(m))
    ensures f == ConfirmField ==> r == e.(confirm := Some(m))
  {
    match f
    case CurrentField => e.(current := Some(m))
    case NewField => e.(newPassword := Some(m))
    case ConfirmField => e.(confirm := Some(m))
  }

  /** The errors in `top` shown over those already in `base`. */
  function Overlay(base: FieldErrors, top: FieldErrors): (r: FieldErrors)
    ensures r.current == (if top.current.Some? then top.current else base.current)
    ensures r.newPassword == (if top.newPassword.Some? then top.newPassword else base.newPassword)
    ensures r.confirm == (if top.confirm.Some? then top.confirm else base.confirm)
  {
    FieldErrors(if top.current.Some? then top.current else base.current,
                if top.newPassword.Some? then top.newPassword else base.newPassword,
                if top.confirm.Some? then top.confirm else base.confirm)
  }

  /** The errors `validateInputs` shows: every field is checked, none stops
      the others. The new password's strength is checked only when it is
      non-empty; the confirmation is compared only when it is non-empty. */
  function InputErrors(current: string, newPassword: string, confirm: string): (e: FieldErrors)
    ensures e.current.Some? <==> current == ""
    ensures e.current.Some? ==> e.current.value == CurrentPasswordRequired
    ensures e.newPassword.Some? <==> newPassword == "" || ValidatePasswordStrengthKt(newPassword) != ""
    ensures newPassword == "" ==> e.newPassword == Some(NewPasswordRequired)
    ensures newPassword != "" && e.newPassword.Some? ==>
      e.newPassword.value == Text(ValidatePasswordStrengthKt(newPassword))
    ensures e.confirm.Some? <==> confirm == "" || confirm != newPassword
    ensures confirm == "" ==> e.confirm == Some(ConfirmPasswordRequired)
    ensures confirm != "" && e.confirm.Some? ==> e.confirm.value == PasswordsDoNotMatch
  {
    FieldErrors(
      if current == "" then Some(CurrentPasswordRequired) else None,
      if newPassword == "" then Some(NewPasswordRequired)
      else if ValidatePasswordStrengthKt(newPassword) != "" then Some(Text(ValidatePasswordStrengthKt(newPassword)))
      else None,
      if confirm == "" then Some(ConfirmPasswordRequired)
      else if newPassword != confirm then Some(PasswordsDoNotMatch)
      else None)
  }

  /** The inputs pass exactly when all three are filled, the new password is
      strong by the registration rules, and the confirmation equals it. */
  lemma InputsValidIff(current: string, newPassword: string, confirm: string)
    ensures InputErrors(current, newPassword, confirm) == NoErrors <==>
      current != "" && newPassword != "" && ValidatePasswordStrength(newPassword) == ""
      && confirm == newPassword
  {
    SameStrengthMessage(newPassword);
  }

  /** Several errors can show together: all three fields empty gives three. */
  lemma AllEmptyShowsThree()
    ensures InputErrors("", "", "") ==
      FieldErrors(Some(CurrentPasswordRequired), Some(NewPasswordRequired), Some(ConfirmPasswordRequired))
  {
  }

  // ---------------------------------------------------------------------
  // Failure mapping

  /** `handlePasswordChangeError`: the field and text shown for an exception
      with the given (nullable) message. */
  function PasswordChangeError(message: Option<string>): (r: (Field, Msg))
    ensures message.Some? && (Contains(message.value, "wrong-password") || Contains(message.value, "invalid-credential"))
      ==> r == (CurrentField, Text("Current password is incorrect"))
    ensures message.Some? && !Contains(message.value, "wrong-password") && !Contains(message.value, "invalid-credential")
      && Contains(message.value, "weak-password")
      ==> r == (NewField, PasswordTooWeak)
    ensures (message.None? || (!Contains(message.value, "wrong-password") && !Contains(message.value, "invalid-credential")
      && !Contains(message.value, "weak-password"))) ==> r == (NewField, Text("Current password is incorrect"))
  {
    if message.Some? && (Contains(message.value, "wrong-password") || Contains(message.value, "invalid-credential")) then
      (CurrentField, Text("Current password is incorrect"))
    else if message.Some? && Contains(message.value, "weak-password") then
      (NewField, PasswordTooWeak)
    else
      (NewField, Text("Current password is incorrect"))
  }

  // ---------------------------------------------------------------------
  // The dialog

  /** The outcome of one Firebase Auth call: done, or an exception with a
      possibly null message. */
  datatype AuthResult = AuthOk | AuthFailed(message: Option<string>)

  /** The Firebase Auth calls the dialog issues. */
  datatype AuthCall = Reauthenticate(email: string, password: string) | UpdatePassword(password: string)

  /** The calls of one `changePassword` run that got past validation, with
      the signed-in user's e-mail (None makes `email!!` throw before any
      call) and the outcome of each call. */
  function AuthCalls(email: Option<string>, current: string, newPassword: string,
                     reauth: AuthResult): (calls: seq<AuthCall>)
    ensures email.None? ==> calls == []
    ensures email.Some? ==> |calls| >= 1 && calls[0] == Reauthenticate(email.value, current)
    ensures |calls| <= 2
    ensures |calls| == 2 <==> email.Some? && reauth.AuthOk?
    ensures |calls| == 2 ==> calls[1] == UpdatePassword(newPassword)
  {
    if email.None? then []
    else if reauth.AuthOk? then [Reauthenticate(email.value, current), UpdatePassword(newPassword)]
    else [Reauthenticate(email.value, current)]
  }

  /** The exception that ends a run, if any: the `!!` null-pointer exception
      (no message), the reauthentication's, then the update's. */
  function RunFailure(email: Option<string>, reauth: AuthResult, update: AuthResult): (r: Option<Option<string>>)
    ensures r.None? <==> email.Some? && reauth.AuthOk? && update.AuthOk?
    ensures email.None? ==> r == Some(None)
  {
    if email.None? then Some(None)
    else if reauth.AuthFailed? then Some(reauth.message)
    else if update.AuthFailed? then Some(update.message)
    else None
  }

  /** What a submission of valid input leaves behind: the errors shown, the
      auth call log, whether confirm is enabled and whether the dialog was
      dismissed. A signed-out user gets one error and no call; otherwise the
      calls of `AuthCalls` are issued, and the run either dismisses the
      dialog with confirm still disabled, or shows the mapped failure and
      enables confirm again. */
  function SendOutcome(user: Option<Option<string>>, current: string, newPassword: string,
                       reauth: AuthResult, update: AuthResult,
                       calls: seq<AuthCall>, confirmEnabled: bool, dismissed: bool)
    : (r: (FieldErrors, seq<AuthCall>, bool, bool))
    ensures user.None? ==> r == (Show(NoErrors, CurrentField, UserNotAuthenticated), calls, confirmEnabled, dismissed)
    ensures user.Some? ==> r.1 == calls + AuthCalls(user.value, current, newPassword, reauth)
    ensures user.Some? && RunFailure(user.value, reauth, update).None? ==> r.0 == NoErrors && !r.2 && r.3
    ensures !(user.Some? && RunFailure(user.value, reauth, update).None?) ==> r.3 == dismissed
    ensures user.Some? && RunFailure(user.value, reauth, update).Some? ==>
      var (f, m) := PasswordChangeError(RunFailure(user.value, reauth, update).value);
      r.0 == Show(NoErrors, f, m) && r.2 && r.3 == dismissed
  {
    if user.None? then (Show(NoErrors, CurrentField, UserNotAuthenticated), calls, confirmEnabled, dismissed)
    else
      var failure := RunFailure(user.value, reauth, update);
      var calls' := calls + AuthCalls(user.value, current, newPassword, reauth);
      if failure.None? then (NoErrors, calls', false, true)
      else
        var (f, m) := PasswordChangeError(failure.value);
        (Show(NoErrors, f, m), calls', true, dismissed)
  }

  /** A whole submission: invalid input shows its errors and calls nothing. */
  function SubmitOutcome(current: string, newPassword: string, confirm: string, user: Option<Option<string>>,
                         reauth: AuthResult, update: AuthResult,
                         calls: seq<AuthCall>, confirmEnabled: bool, dismissed: bool)
    : (r: (FieldErrors, seq<AuthCall>, bool, bool))
    ensures InputErrors(current, newPassword, confirm) != NoErrors ==>
      r == (InputErrors(current, newPassword, confirm), calls, confirmEnabled, dismissed)
    ensures InputErrors(current, newPassword, confirm) == NoErrors ==>
      r == SendOutcome(user, current, newPassword, reauth, update, calls, confirmEnabled, dismissed)
  {
    var errs := InputErrors(current, newPassword, confirm);
    if errs != NoErrors then (errs, calls, confirmEnabled, dismissed)
    else SendOutcome(user, current, newPassword, reauth, update, calls, confirmEnabled, dismissed)
  }

  class ChangePasswordDialog {
    /** The visible error under each field. */
    var errors: FieldErrors
    var confirmEnabled: bool
    var isCurrentPasswordVisible: bool
    var isNewPasswordVisible: bool
    var isConfirmPasswordVisible: bool
    var dismissed: bool
    /** Every Firebase Auth call issued so far, in order. */
    var calls: seq<AuthCall>
    /** The e-mail of the user signed in when the dialog was made, if any. */
    const currentUser: Option<Option<string>>

    constructor (currentUser: Option<Option<string>>)
      ensures this.currentUser == currentUser
      ensures errors == NoErrors && confirmEnabled && !dismissed && calls == []
      ensures !isCurrentPasswordVisible && !isNewPasswordVisible && !isConfirmPasswordVisible
    {
      this.currentUser := currentUser;
      errors := NoErrors;
      confirmEnabled := true;
      isCurrentPasswordVisible := false;
      isNewPasswordVisible := false;
      isConfirmPasswordVisible := false;
      dismissed := false;
      calls := [];
    }

    method ToggleCurrentPassword()
      modifies this
      ensures isCurrentPasswordVisible == !old(isCurrentPasswordVisible)
      ensures isNewPasswordVisible == old(isNewPasswordVisible)
      ensures isConfirmPasswordVisible == old(isConfirmPasswordVisible)
      ensures errors == old(errors) && confirmEnabled == old(confirmEnabled)
      ensures dismissed == old(dismissed) && calls == old(calls)
    {
      isCurrentPasswordVisible := !isCurrentPasswordVisible;
    }

    method ToggleNewPassword()
      modifies this
      ensures isNewPasswordVisible == !old(isNewPasswordVisible)
      ensures isCurrentPasswordVisible == old(isCurrentPasswordVisible)
      ensures isConfirmPasswordVisible == old(isConfirmPasswordVisible)
      ensures errors == old(errors) && confirmEnabled == old(confirmEnabled)
      ensures dismissed == old(dismissed) && calls == old(calls)
    {
      isNewPasswordVisible := !isNewPasswordVisible;
    }

    method ToggleConfirmPassword()
      modifies this
      ensures isConfirmPasswordVisible == !old(isConfirmPasswordVisible)
      ensures isCurrentPasswordVisible == old(isCurrentPasswordVisible)
      ensures isNewPasswordVisible == old(isNewPasswordVisible)
      ensures errors == old(errors) && confirmEnabled == old(confirmEnabled)
      ensures dismissed == old(dismissed) && calls == old(calls)
    {
      isConfirmPasswordVisible := !isConfirmPasswordVisible;
    }

    /** `validateInputs`: shows an error per failing field, keeping a running
        `isValid` flag. */
    method ValidateInputs(current: string, newPassword: string, confirm: string) returns (isValid: bool)
      modifies this
      ensures isValid <==> InputErrors(current, newPassword, confirm) == NoErrors
      ensures errors == Overlay(old(errors), InputErrors(current, newPassword, confirm))
      ensures confirmEnabled == old(confirmEnabled) && dismissed == old(dismissed) && calls == old(calls)
      ensures isCurrentPasswordVisible == old(isCurrentPasswordVisible)
      ensures isNewPasswordVisible == old(isNewPasswordVisible)
      ensures isConfirmPasswordVisible == old(isConfirmPasswordVisible)
    {
      isValid := true;
      if current == "" {
        errors := errors.(current := Some(CurrentPasswordRequired));
        isValid := false;
      }
      if newPassword == "" {
        errors := errors.(newPassword := Some(NewPasswordRequired));
        isValid := false;
      } else {
        var passwordError := ValidatePasswordStrengthKt(newPassword);
        if passwordError != "" {
          errors := errors.(newPassword := Some(Text(passwordError)));
          isValid := false;
        }
      }
      if confirm == "" {
        errors := errors.(confirm := Some(ConfirmPasswordRequired));
        isValid := false;
      } else if newPassword != confirm {
        errors := errors.(confirm := Some(PasswordsDoNotMatch));
        isValid := false;
      }
    }

    /** `changePassword` with the outcomes of the two auth calls given: the
        three inputs are trimmed, then submitted. */
    method ChangePassword(currentRaw: string, newRaw: string, confirmRaw: string,
                          reauth: AuthResult, update: AuthResult)
      modifies this
      ensures (errors, calls, confirmEnabled, dismissed) ==
        SubmitOutcome(KotlinTrim(currentRaw), KotlinTrim(newRaw), KotlinTrim(confirmRaw), currentUser, reauth, update,
                old(calls), old(confirmEnabled), old(dismissed))
      ensures isCurrentPasswordVisible == old(isCurrentPasswordVisible)
      ensures isNewPasswordVisible == old(isNewPasswordVisible)
      ensures isConfirmPasswordVisible == old(isConfirmPasswordVisible)
    {
      Submit(KotlinTrim(currentRaw), KotlinTrim(newRaw), KotlinTrim(confirmRaw), reauth, update);
    }

    /** The body of `changePassword` after trimming. */
    method Submit(current: string, newPassword: string, confirm: string, reauth: AuthResult, update: AuthResult)
      modifies this
      ensures (errors, calls, confirmEnabled, dismissed) ==
        SubmitOutcome(current, newPassword, confirm, currentUser, reauth, update,
                old(calls), old(confirmEnabled), old(dismissed))
      ensures isCurrentPasswordVisible == old(isCurrentPasswordVisible)
      ensures isNewPasswordVisible == old(isNewPasswordVisible)
      ensures isConfirmPasswordVisible == old(isConfirmPasswordVisible)
    {
      errors := NoErrors;
      var ok := ValidateInputs(current, newPassword, confirm);
      if ok {
        Send(current, newPassword, reauth, update);
      }
    }

    /** `changePassword` once the inputs are valid. */
    method Send(current: string, newPassword: string, reauth: AuthResult, update: AuthResult)
      requires errors == NoErrors
      modifies this
      ensures (errors, calls, confirmEnabled, dismissed) ==
        SendOutcome(currentUser, current, newPassword, reauth, update,
                    old(calls), old(confirmEnabled), old(dismissed))
      ensures isCurrentPasswordVisible == old(isCurrentPasswordVisible)
      ensures isNewPasswordVisible == old(isNewPasswordVisible)
      ensures isConfirmPasswordVisible == old(isConfirmPasswordVisible)
    {
      if currentUser.None? {
        errors := Show(errors, CurrentField, UserNotAuthenticated);
        return;
      }
      confirmEnabled := false;
      var email := currentUser.value;
      var failure: Option<Option<string>>;
      if email.None? {
        failure := Some(None);
      } else {
        calls := calls + [Reauthenticate(email.value, current)];
        if reauth.AuthFailed? {
          failure := Some(reauth.message);
        } else {
          calls := calls + [UpdatePassword(newPassword)];
          failure := if update.AuthFailed? then Some(update.message) else None;
        }
      }
      assert calls == old(calls) + AuthCalls(email, current, newPassword, reauth);
      if failure.None? {
        dismissed := true;
      } else {
        var (f, m) := PasswordChangeError(failure.value);
        errors := Show(errors, f, m);
        confirmEnabled := true;
      }
    }
  }

  /** The password is only ever updated right after a reauthentication
      with the current password that succeeded. */
  lemma UpdateOnlyAfterReauth(email: Option<string>, current: string, newPassword: string, reauth: AuthResult)
    ensures var calls := AuthCalls(email, current, newPassword, reauth);
      forall i :: 0 <= i < |calls| && calls[i].UpdatePassword? ==>
        i == 1 && calls[0] == Reauthenticate(email.value, current) && reauth.AuthOk?
  {
  }
}
