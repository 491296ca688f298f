/** LoginActivity.java: the sign-in guard chain and the remember-me state
    kept in SharedPreferences for thirty days.

    Sign-in is an outcome parameter and the
    clock is `now`. */
module Login {
  import opened Common
  import opened SharedPrefs

  // ---------------------------------------------------------------------
  // Remember-me state

  const KEY_REMEMBER_ME := "REMEMBER_ME"
  const KEY_USER_EMAIL := "USER_EMAIL"
  const KEY_LOGIN_TIME := "LOGIN_TIME"

  /** 30 days in milliseconds. */
  const THIRTY_DAYS_IN_MILLIS: Long := 30 * 24 * 60 * 60 * 1000

  /** `clearRememberMeState`: REMEMBER_ME false, no e-mail, no login time;
      every other key kept. */
  function ClearRememberMe(prefs: Prefs): (r: Prefs)
    ensures KEY_REMEMBER_ME in r && r[KEY_REMEMBER_ME] == BoolPref(false)
    ensures KEY_USER_EMAIL !in r && KEY_LOGIN_TIME !in r
    ensures forall k :: k != KEY_REMEMBER_ME && k != KEY_USER_EMAIL && k != KEY_LOGIN_TIME ==>
      (k in r <==> k in prefs) && (k in r ==> r[k] == prefs[k])
  {
    prefs[KEY_REMEMBER_ME := BoolPref(false)] - {KEY_USER_EMAIL, KEY_LOGIN_TIME}
  }

  /** `saveRememberMeState`: the checkbox is stored; when checked the e-mail
      and the time are stored too, otherwise both are removed. */
  function SaveRememberMe(prefs: Prefs, checked: bool, email: string, now: Long): (r: Prefs)
    ensures KEY_REMEMBER_ME in r && r[KEY_REMEMBER_ME] == BoolPref(checked)
    ensures checked ==> KEY_USER_EMAIL in r && r[KEY_USER_EMAIL] == StringPref(email)
    ensures checked ==> KEY_LOGIN_TIME in r && r[KEY_LOGIN_TIME] == LongPref(now)
    ensures !checked ==> KEY_USER_EMAIL !in r && KEY_LOGIN_TIME !in r
    ensures forall k :: k != KEY_REMEMBER_ME && k != KEY_USER_EMAIL && k != KEY_LOGIN_TIME ==>
      (k in r <==> k in prefs) && (k in r ==> r[k] == prefs[k])
  {
    var p := prefs[KEY_REMEMBER_ME := BoolPref(checked)];
    if checked then p[KEY_USER_EMAIL := StringPref(email)][KEY_LOGIN_TIME := LongPref(now)]
    else p - {KEY_USER_EMAIL, KEY_LOGIN_TIME}
  }

  /** Remembered and not yet expired: `now - loginTime` (Java `long`
      subtraction) is below thirty days. */
  predicate RememberValid(prefs: Prefs, now: Long)
  {
    GetBoolean(prefs, KEY_REMEMBER_ME, false)
    && LongSub(now, GetLong(prefs, KEY_LOGIN_TIME, 0)) < THIRTY_DAYS_IN_MILLIS
  }

  /** The e-mail `loadRememberMeState` prefills, if any. */
  function RememberedEmail(prefs: Prefs, now: Long): (r: Option<string>)
    ensures r.Some? <==> RememberValid(prefs, now) && GetString(prefs, KEY_USER_EMAIL, Some("")).value != ""
    ensures r.Some? ==> r.value == GetString(prefs, KEY_USER_EMAIL, Some("")).value
  {
    if RememberValid(prefs, now) && GetString(prefs, KEY_USER_EMAIL, Some("")).value != ""
    then Some(GetString(prefs, KEY_USER_EMAIL, Some("")).value)
    else None
  }

  /** Saving with the box checked and loading less than thirty days later
      gives the e-mail back. */
  lemma RememberRoundTrip(prefs: Prefs, email: string, saved: Long, now: Long)
    requires email != ""
    requires saved <= now < saved + THIRTY_DAYS_IN_MILLIS
    ensures RememberedEmail(SaveRememberMe(prefs, true, email, saved), now) == Some(email)
  {
  }

  /** From thirty days on (and without a wrap-around) the remembered state
      is gone, whatever was saved. */
  lemma RememberExpires(prefs: Prefs, email: string, saved: Long, now: Long)
    requires 0 <= saved && saved + THIRTY_DAYS_IN_MILLIS <= now
    ensures !RememberValid(SaveRememberMe(prefs, true, email, saved), now)
  {
  }

  /** Saving with the box unchecked forgets the e-mail at once. */
  lemma UncheckedForgets(prefs: Prefs, email: string, saved: Long, now: Long)
    ensures RememberedEmail(SaveRememberMe(prefs, false, email, saved), now).None?
  {
  }

  // ---------------------------------------------------------------------
  // Sign-in guards

  datatype LoginProblem = EmailRequired | PasswordRequired | PasswordTooShort

  /** `loginUser`'s checks on the trimmed inputs, first failure first. */
  function LoginCheck(email: string, password: string): (r: Option<LoginProblem>)
    ensures r.None? <==> email != "" && password != "" && |password| >= 6
    ensures r == Some(EmailRequired) <==> email == ""
    ensures r == Some(PasswordRequired) <==> email != "" && password == ""
    ensures r == Some(PasswordTooShort) <==> email != "" && 0 < |password| < 6
  {
    if email == "" then Some(EmailRequired)
    else if password == "" then Some(PasswordRequired)
    else if |password| < 6 then Some(PasswordTooShort)
    else None
  }

  function ProblemText(p: LoginProblem): string
  {
    match p
    case EmailRequired => "Email is required"
    case PasswordRequired => "Password is required"
    case PasswordTooShort => "Password must be at least 6 characters"
  }

  // ---------------------------------------------------------------------
  // The screen

  class LoginScreen {
    var prefs: Prefs
    var emailText: string
    var rememberChecked: bool
    var isPasswordVisible: bool
    var loginEnabled: bool
    /** The field error set by the last guard failure. */
    var fieldError: Option<LoginProblem>
    /** Whether "Email or password is incorrect" is shown. */
    var loginErrorShown: bool
    var movedToMain: bool
    /** The sign-in requests issued, as (e-mail, password). */
    var signIns: seq<(string, string)>

    constructor (prefs: Prefs)
      ensures this.prefs == prefs && emailText == "" && !rememberChecked && !isPasswordVisible
      ensures loginEnabled && fieldError.None? && !loginErrorShown && !movedToMain && signIns == []
    {
      this.prefs := prefs;
      emailText := "";
      rememberChecked := false;
      isPasswordVisible := false;
      loginEnabled := true;
      fieldError := None;
      loginErrorShown := false;
      movedToMain := false;
      signIns := [];
    }

    method TogglePassword()
      modifies this
      ensures isPasswordVisible == !old(isPasswordVisible)
      ensures prefs == old(prefs) && emailText == old(emailText) && rememberChecked == old(rememberChecked)
      ensures loginEnabled == old(loginEnabled) && fieldError == old(fieldError)
      ensures loginErrorShown == old(loginErrorShown) && movedToMain == old(movedToMain) && signIns == old(signIns)
    {
      isPasswordVisible := !isPasswordVisible;
    }

    /** The user ticking or clearing the "remember me" box, which
        `saveRememberMeState` reads when a sign-in succeeds. */
    method SetRememberChecked(checked: bool)
      modifies this
      ensures rememberChecked == checked
      ensures prefs == old(prefs) && emailText == old(emailText) && isPasswordVisible == old(isPasswordVisible)
      ensures loginEnabled == old(loginEnabled) && fieldError == old(fieldError)
      ensures loginErrorShown == old(loginErrorShown) && movedToMain == old(movedToMain) && signIns == old(signIns)
    {
      rememberChecked := checked;
    }

    /** `loadRememberMeState`: ticks the box from the stored flag; an
        unexpired state prefills a non-empty e-mail (and moves on when a user
        is signed in), an expired one is cleared. */
    method LoadRememberMe(now: Long, signedIn: bool)
      modifies this
      ensures rememberChecked == GetBoolean(old(prefs), KEY_REMEMBER_ME, false)
      ensures prefs == (if rememberChecked && !RememberValid(old(prefs), now) then ClearRememberMe(old(prefs))
                        else old(prefs))
      ensures var e := RememberedEmail(old(prefs), now);
        emailText == (if e.Some? then e.value else old(emailText))
        && movedToMain == (old(movedToMain) || (e.Some? && signedIn))
      ensures isPasswordVisible == old(isPasswordVisible) && loginEnabled == old(loginEnabled)
      ensures fieldError == old(fieldError) && loginErrorShown == old(loginErrorShown) && signIns == old(signIns)
    {
      var rememberMe := GetBoolean(prefs, KEY_REMEMBER_ME, false);
      rememberChecked := rememberMe;
      if rememberMe {
        var loginTime := GetLong(prefs, KEY_LOGIN_TIME, 0);
        if LongSub(now, loginTime) < THIRTY_DAYS_IN_MILLIS {
          var savedEmail := GetString(prefs, KEY_USER_EMAIL, Some("")).value;
          if savedEmail != "" {
            emailText := savedEmail;
            if signedIn {
              movedToMain := true;
            }
          }
        } else {
          prefs := ClearRememberMe(prefs);
        }
      }
    }

    /** `loginUser` with the sign-in outcome given: both inputs are trimmed,
        then submitted. */
    method LoginUser(emailRaw: string, passwordRaw: string, signInOk: bool, now: Long)
      modifies this
      ensures LoginCheck(JavaTrim(emailRaw), JavaTrim(passwordRaw)).Some? ==>
        fieldError == LoginCheck(JavaTrim(emailRaw), JavaTrim(passwordRaw))
        && signIns == old(signIns) && prefs == old(prefs) && !loginErrorShown
        && movedToMain == old(movedToMain) && loginEnabled == old(loginEnabled)
      ensures LoginCheck(JavaTrim(emailRaw), JavaTrim(passwordRaw)).None? ==>
        fieldError == old(fieldError) && signIns == old(signIns) + [(JavaTrim(emailRaw), JavaTrim(passwordRaw))]
        && loginEnabled
        && (signInOk ==> prefs == SaveRememberMe(old(prefs), rememberChecked, JavaTrim(emailRaw), now)
                         && movedToMain && !loginErrorShown)
        && (!signInOk ==> prefs == old(prefs) && loginErrorShown && movedToMain == old(movedToMain))
      ensures rememberChecked == old(rememberChecked) && emailText == old(emailText)
      ensures isPasswordVisible == old(isPasswordVisible)
    {
      Submit(JavaTrim(emailRaw), JavaTrim(passwordRaw), signInOk, now);
    }

    /** The body of `loginUser` on the trimmed inputs. The error line is
        hidden first; a failed guard sets its field error and sends nothing;
        a sent request re-enables the button when it completes; only a
        successful sign-in writes the remember-me state and moves on. */
    method Submit(email: string, password: string, signInOk: bool, now: Long)
      modifies this
      ensures LoginCheck(email, password).Some? ==>
        fieldError == LoginCheck(email, password) && signIns == old(signIns) && prefs == old(prefs)
        && !loginErrorShown && movedToMain == old(movedToMain) && loginEnabled == old(loginEnabled)
      ensures LoginCheck(email, password).None? ==>
        fieldError == old(fieldError) && signIns == old(signIns) + [(email, password)] && loginEnabled
        && (signInOk ==> prefs == SaveRememberMe(old(prefs), rememberChecked, email, now)
                         && movedToMain && !loginErrorShown)
        && (!signInOk ==> prefs == old(prefs) && loginErrorShown && movedToMain == old(movedToMain))
      ensures rememberChecked == old(rememberChecked) && emailText == old(emailText)
      ensures isPasswordVisible == old(isPasswordVisible)
    {
      loginErrorShown := false;
      var check := LoginCheck(email, password);
      if check.Some? {
        fieldError := check;
        return;
      }
      loginEnabled := false;
      signIns := signIns + [(email, password)];
      loginEnabled := true;
      if signInOk {
        prefs := SaveRememberMe(prefs, rememberChecked, email, now);
        movedToMain := true;
      } else {
        loginErrorShown := true;
      }
    }
  }
}
