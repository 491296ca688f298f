/** ForgotPasswordActivity.java: the reset-request guards, the mapping of a
    failure to its message, and the two exclusive message lines. The e-mail
    pattern (`Patterns.EMAIL_ADDRESS`) is a parameter; the reset request's
    outcome is a parameter. */
module ForgotPassword {
  import opened Common

  /** The string resources the screen shows. */
  datatype Message =
    | EmailRequired
    | InvalidEmailFormat
    | ResetEmailFailed
    | EmailNotFound
    /** `reset_email_sent` formatted with the address. */
    | ResetEmailSent(email: string)

  /** `isValidEmail`. */
  predicate IsValidEmail(email: string, emailPattern: string -> bool)
  {
    email != "" && emailPattern(email)
  }

  /** The outcome of `sendPasswordResetEmail`: done, or failed with an
      exception (absent) that has a message (possibly null). */
  datatype ResetResult = ResetOk | ResetFailed(exception: Option<Option<string>>)

  /** The error a failed request shows. */
  function FailureMessage(exception: Option<Option<string>>): (m: Message)
    ensures m == EmailNotFound <==>
      exception.Some? && exception.value.Some? && Contains(exception.value.value, "user-not-found")
    ensures m != EmailNotFound ==> m == ResetEmailFailed
  {
    if exception.Some? && exception.value.Some? && Contains(exception.value.value, "user-not-found")
    then EmailNotFound
    else ResetEmailFailed
  }

  class ForgotPasswordScreen {
    /** The text and visibility of the error and success lines. */
    var errorText: Option<Message>
    var errorVisible: bool
    var successText: Option<Message>
    var successVisible: bool
    var sendEnabled: bool
    /** The addresses a reset e-mail was requested for, in order. */
    var requests: seq<string>

    /** Both messages start hidden. */
    constructor ()
      ensures !errorVisible && !successVisible && sendEnabled && requests == []
      ensures errorText.None? && successText.None?
    {
      errorText := None;
      errorVisible := false;
      successText := None;
      successVisible := false;
      sendEnabled := true;
      requests := [];
    }

    method ShowError(m: Message)
      modifies this
      ensures errorText == Some(m) && errorVisible && !successVisible
      ensures successText == old(successText) && sendEnabled == old(sendEnabled) && requests == old(requests)
    {
      errorText := Some(m);
      errorVisible := true;
      successVisible := false;
    }

    method ShowSuccess(m: Message)
      modifies this
      ensures successText == Some(m) && successVisible && !errorVisible
      ensures errorText == old(errorText) && sendEnabled == old(sendEnabled) && requests == old(requests)
    {
      successText := Some(m);
      successVisible := true;
      errorVisible := false;
    }

    method HideAllMessages()
      modifies this
      ensures !errorVisible && !successVisible
      ensures errorText == old(errorText) && successText == old(successText)
      ensures sendEnabled == old(sendEnabled) && requests == old(requests)
    {
      errorVisible := false;
      successVisible := false;
    }

    /** `sendPasswordResetEmail` with the request's outcome given. After it,
        exactly one of the two lines is visible; the button is enabled again
        on either outcome; a request is sent only for a non-empty, well-formed
        address. */
    method SendPasswordResetEmail(emailRaw: string, emailPattern: string -> bool, result: ResetResult)
      modifies this
      ensures errorVisible != successVisible
      ensures sendEnabled == (old(sendEnabled) || IsValidEmail(JavaTrim(emailRaw), emailPattern))
      ensures var email := JavaTrim(emailRaw);
        if email == "" then
          errorText == Some(EmailRequired) && errorVisible && requests == old(requests)
        else if !IsValidEmail(email, emailPattern) then
          errorText == Some(InvalidEmailFormat) && errorVisible && requests == old(requests)
        else
          requests == old(requests) + [email]
          && (result.ResetOk? ==> successText == Some(ResetEmailSent(email)) && successVisible)
          && (result.ResetFailed? ==> errorText == Some(FailureMessage(result.exception)) && errorVisible)
    {
      var email := JavaTrim(emailRaw);
      HideAllMessages();
      if email == "" {
        ShowError(EmailRequired);
        return;
      }
      if !IsValidEmail(email, emailPattern) {
        ShowError(InvalidEmailFormat);
        return;
      }
      sendEnabled := false;
      requests := requests + [email];
      sendEnabled := true;
      if result.ResetOk? {
        ShowSuccess(ResetEmailSent(email));
      } else {
        ShowError(FailureMessage(result.exception));
      }
    }
  }
}
