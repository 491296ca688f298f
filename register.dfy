/** RegisterActivity.java: the password-strength message and the sign-up
    validation chain.

    `String.matches(".*[A-Z].*")` must match the whole password, and `.` does
    not match a line terminator, so each class test holds exactly when the
    password has no line terminator and has a character of the class. The
    e-mail format test (`Patterns.EMAIL_ADDRESS`) is a parameter. */
module Register {
  import opened Common

  // ---------------------------------------------------------------------
  // Password strength

  predicate LineTerminator(c: char)
  {
    c == '\n' || c == '\r' || c == '\U{85}' || c == '\U{2028}' || c == '\U{2029}'
  }

  /** `password.matches(".*[cls].*")`. */
  predicate MatchesSomewhere(p: string, cls: char -> bool)
  {
    (forall i :: 0 <= i < |p| ==> !LineTerminator(p[i])) && (exists i :: 0 <= i < |p| && cls(p[i]))
  }

  predicate AsciiUpper(c: char) { 'A' <= c <= 'Z' }
  predicate AsciiLower(c: char) { 'a' <= c <= 'z' }
  predicate AsciiDigit(c: char) { '0' <= c <= '9' }
  predicate SpecialChar(c: char) { c in "!@#$%^&*(),.?\":{}|<>" }

  /** The five requirements, in the order the message lists them. */
  datatype Rule = MinLength | Uppercase | Lowercase | Number | Special

  const AllRules: seq<Rule> := [MinLength, Uppercase, Lowercase, Number, Special]

  predicate Satisfies(p: string, r: Rule)
  {
    match r
    case MinLength => |p| >= 8
    case Uppercase => MatchesSomewhere(p, AsciiUpper)
    case Lowercase => MatchesSomewhere(p, AsciiLower)
    case Number => MatchesSomewhere(p, AsciiDigit)
    case Special => MatchesSomewhere(p, SpecialChar)
  }

  function Bullet(r: Rule): string
  {
    match r
    case MinLength => "• At least 8 characters"
    case Uppercase => "• At least one uppercase letter"
    case Lowercase => "• At least one lowercase letter"
    case Number => "• At least one number"
    case Special => "• At least one special character"
  }

  /** What the builder receives for a failed rule: every bullet but the
      last one ends with a newline. */
  function Piece(r: Rule): string
  {
    if r == Special then Bullet(r) else Bullet(r) + "\n"
  }

  /** The builder's contents before `trim()`. */
  function StrengthErrors(p: string): string
  {
    (if |p| < 8 then Piece(MinLength) else "")
    + (if !MatchesSomewhere(p, AsciiUpper) then Piece(Uppercase) else "")
    + (if !MatchesSomewhere(p, AsciiLower) then Piece(Lowercase) else "")
    + (if !MatchesSomewhere(p, AsciiDigit) then Piece(Number) else "")
    + (if !MatchesSomewhere(p, SpecialChar) then Piece(Special) else "")
  }

  /** `validatePasswordStrength` (Java). */
  function ValidatePasswordStrength(p: string): string
  {
    var errorList := JavaTrim(StrengthErrors(p));
    if errorList != "" then "Passwords must be:\n" + errorList else errorList
  }

  const Header := "Passwords must be:\n"

  /** `[r]` when the password fails rule `r`, else nothing. */
  function IfFails(p: string, r: Rule): seq<Rule>
  {
    if Satisfies(p, r) then [] else [r]
  }

  /** The failed rules, in message order. */
  function Failing(p: string): (f: seq<Rule>)
    ensures forall r :: r in f <==> !Satisfies(p, r)
  {
    IfFails(p, MinLength) + IfFails(p, Uppercase) + IfFails(p, Lowercase)
    + IfFails(p, Number) + IfFails(p, Special)
  }

  /** Bullets joined by single newlines, with no newline at the end. */
  function JoinLines(rs: seq<Rule>): string
  {
    if rs == [] then ""
    else if |rs| == 1 then Bullet(rs[0])
    else Bullet(rs[0]) + "\n" + JoinLines(rs[1..])
  }

  function Concat(rs: seq<Rule>): string
  {
    if rs == [] then "" else Piece(rs[0]) + Concat(rs[1..])
  }

  lemma {:induction false} ConcatAppend(a: seq<Rule>, b: seq<Rule>)
    ensures Concat(a + b) == Concat(a) + Concat(b)
  {
    if a == [] {
      assert a + b == b;
    } else {
      assert (a + b)[1..] == a[1..] + b;
      ConcatAppend(a[1..], b);
    }
  }

  lemma ConcatIfFails(p: string, r: Rule)
    ensures Concat(IfFails(p, r)) == if Satisfies(p, r) then "" else Piece(r)
  {
    if !Satisfies(p, r) {
      assert [r][1..] == [];
    }
  }

  /** The builder appends exactly the pieces of the failed rules. */
  lemma {:induction false} StrengthErrorsIsConcat(p: string)
    ensures StrengthErrors(p) == Concat(Failing(p))
  {
    var a, b, c := IfFails(p, MinLength), IfFails(p, Uppercase), IfFails(p, Lowercase);
    var d, e := IfFails(p, Number), IfFails(p, Special);
    ConcatIfFails(p, MinLength);
    ConcatIfFails(p, Uppercase);
    ConcatIfFails(p, Lowercase);
    ConcatIfFails(p, Number);
    ConcatIfFails(p, Special);
    ConcatAppend(a + b + c + d, e);
    ConcatAppend(a + b + c, d);
    ConcatAppend(a + b, c);
    ConcatAppend(a, b);
  }

  predicate SpecialOnlyLast(rs: seq<Rule>)
  {
    forall i :: 0 <= i < |rs| - 1 ==> rs[i] != Special
  }

  /** The concatenated pieces are the joined bullets, plus one newline when
      the last failed rule is not the special-character rule. */
  lemma {:induction false} ConcatIsJoin(rs: seq<Rule>)
    requires SpecialOnlyLast(rs)
    ensures rs != [] ==>
      Concat(rs) == JoinLines(rs) + (if rs[|rs| - 1] == Special then "" else "\n")
  {
    if |rs| > 1 {
      ConcatIsJoin(rs[1..]);
      assert rs[1..][|rs[1..]| - 1] == rs[|rs| - 1];
    } else if |rs| == 1 {
      assert rs[1..] == [];
    }
  }

  lemma FailingSpecialLast(p: string)
    ensures SpecialOnlyLast(Failing(p))
  {
    var g := IfFails(p, MinLength) + IfFails(p, Uppercase) + IfFails(p, Lowercase) + IfFails(p, Number);
    assert Special !in g;
  }

  /** Every joined message starts with a bullet and ends with a letter. */
  lemma {:induction false} JoinLinesEnds(rs: seq<Rule>)
    requires rs != []
    ensures var j := JoinLines(rs); |j| > 0 && j[0] == '•' && 'a' <= j[|j| - 1] <= 'z'
  {
    if |rs| > 1 {
      JoinLinesEnds(rs[1..]);
    }
  }

  lemma TrimUntouched(s: string, ws: char -> bool)
    requires s != [] && !ws(s[0]) && !ws(s[|s| - 1])
    ensures Trim(s, ws) == s
  {
  }

  lemma TrimDropsNewline(s: string, ws: char -> bool)
    requires s != [] && !ws(s[0]) && !ws(s[|s| - 1]) && ws('\n')
    ensures Trim(s + "\n", ws) == s
  {
    var t := s + "\n";
    assert TrimStart(t, ws) == t;
    assert t[..|t| - 1] == s;
    assert TrimEnd(s, ws) == s;
  }

  /** The trimmed builder, for either trim: the joined failure bullets. */
  lemma {:induction false} TrimmedErrors(p: string, ws: char -> bool)
    requires ws('\n') && !ws('•') && forall c :: 'a' <= c <= 'z' ==> !ws(c)
    ensures Trim(StrengthErrors(p), ws) == JoinLines(Failing(p))
  {
    var f := Failing(p);
    StrengthErrorsIsConcat(p);
    FailingSpecialLast(p);
    ConcatIsJoin(f);
    if f == [] {
    } else {
      JoinLinesEnds(f);
      var j := JoinLines(f);
      if f[|f| - 1] == Special {
        assert j + "" == j;
        TrimUntouched(j, ws);
      } else {
        TrimDropsNewline(j, ws);
      }
    }
  }

  /** The message is empty when every rule holds; otherwise it is the header
      followed by the failed rules' bullets, one per line, in rule order. */
  lemma StrengthMessage(p: string)
    ensures ValidatePasswordStrength(p) ==
      (if Failing(p) == [] then "" else Header + JoinLines(Failing(p)))
  {
    TrimmedErrors(p, JavaSpace);
    if Failing(p) != [] {
      JoinLinesEnds(Failing(p));
    }
  }

  /** A password is accepted exactly when it meets all five requirements. */
  lemma StrongIff(p: string)
    ensures ValidatePasswordStrength(p) == "" <==>
      |p| >= 8 && MatchesSomewhere(p, AsciiUpper) && MatchesSomewhere(p, AsciiLower)
      && MatchesSomewhere(p, AsciiDigit) && MatchesSomewhere(p, SpecialChar)
  {
    StrengthMessage(p);
    var f := Failing(p);
    if f == [] {
      forall r | r in AllRules ensures Satisfies(p, r) { }
      assert Satisfies(p, MinLength) && Satisfies(p, Uppercase) && Satisfies(p, Lowercase);
      assert Satisfies(p, Number) && Satisfies(p, Special);
    } else {
      assert f[0] in f;
    }
  }

  // ---------------------------------------------------------------------
  // Sign-up chain

  /** The error label a rejection is shown under. */
  datatype ErrorView = NameError | EmailError | MismatchError | StrengthError

  datatype RegisterDecision =
    | Rejected(view: ErrorView, message: string)
    | CreateAccount(name: string, email: string, password: string)

  /** The checks of `registerUser`, on the trimmed inputs, stopping at the
      first that fails. */
  function DecideTrimmed(n: string, e: string, p: string, c: string,
                         isValidEmail: string -> bool): RegisterDecision
  {
    if n == "" then Rejected(NameError, "Name is required")
    else if e == "" then Rejected(EmailError, "Email is required")
    else if !isValidEmail(e) then Rejected(EmailError, "Please enter a valid email address")
    else if p == "" then Rejected(StrengthError, "Password is required")
    else if p != c then Rejected(MismatchError, "Passwords don't match")
    else if ValidatePasswordStrength(p) != "" then Rejected(StrengthError, ValidatePasswordStrength(p))
    else CreateAccount(n, e, p)
  }

  /** `registerUser` up to the account creation: the four inputs are trimmed first. */
  function DecideRegistration(name: string, email: string, password: string, confirm: string,
                              isValidEmail: string -> bool): RegisterDecision
  {
    DecideTrimmed(JavaTrim(name), JavaTrim(email), JavaTrim(password), JavaTrim(confirm), isValidEmail)
  }

  /** An account is requested exactly when every check passes, and then with
      the trimmed values. */
  lemma CreateAccountIff(name: string, email: string, password: string, confirm: string,
                         isValidEmail: string -> bool)
    ensures var d := DecideRegistration(name, email, password, confirm, isValidEmail);
      d.CreateAccount? <==>
        (JavaTrim(name) != "" && JavaTrim(email) != "" && isValidEmail(JavaTrim(email))
         && JavaTrim(password) != "" && JavaTrim(password) == JavaTrim(confirm)
         && ValidatePasswordStrength(JavaTrim(password)) == "")
    ensures var d := DecideRegistration(name, email, password, confirm, isValidEmail);
      d.CreateAccount? ==> d == CreateAccount(JavaTrim(name), JavaTrim(email), JavaTrim(password))
  {
  }

  /** A confirmation mismatch is reported even when the password is also weak. */
  lemma MismatchBeforeStrength(name: string, email: string, password: string, confirm: string,
                               isValidEmail: string -> bool)
    requires JavaTrim(name) != "" && JavaTrim(email) != "" && isValidEmail(JavaTrim(email))
    requires JavaTrim(password) != "" && JavaTrim(password) != JavaTrim(confirm)
    ensures DecideRegistration(name, email, password, confirm, isValidEmail)
      == Rejected(MismatchError, "Passwords don't match")
  {
  }

  /** Surrounding blanks in any field never change the decision. */
  lemma DecisionIgnoresSurroundingBlanks(name: string, email: string, password: string, confirm: string,
                                         isValidEmail: string -> bool)
    ensures DecideRegistration(JavaTrim(name), JavaTrim(email), JavaTrim(password), JavaTrim(confirm), isValidEmail)
      == DecideRegistration(name, email, password, confirm, isValidEmail)
  {
    TrimIdempotent(name, JavaSpace);
    TrimIdempotent(email, JavaSpace);
    TrimIdempotent(password, JavaSpace);
    TrimIdempotent(confirm, JavaSpace);
  }

  /** Outcome of `createUserWithEmailAndPassword`: the new user's uid, or failure. */
  datatype CreateResult = Created(uid: string) | CreateFailed

  /** What a sign-up attempt leaves behind: the visible errors, the `users`
      collection and whether the screen moved on to login. A rejection shows
      one message under its field; a created account is stored as name and
      e-mail under its uid, and only a stored one moves on. */
  function RegisterOutcome(d: RegisterDecision, create: CreateResult, saveOk: bool,
                   users: map<string, map<string, string>>, moved: bool)
    : (r: (map<ErrorView, string>, map<string, map<string, string>>, bool))
    ensures d.Rejected? ==> r == (map[d.view := d.message], users, moved)
    ensures d.CreateAccount? ==> r.0 == map[]
    ensures d.CreateAccount? && create.Created? && saveOk ==>
      r.1 == users[create.uid := map["name" := d.name, "email" := d.email]] && r.2
    ensures !(d.CreateAccount? && create.Created? && saveOk) ==> r.1 == users && r.2 == moved
  {
    if d.Rejected? then (map[d.view := d.message], users, moved)
    else match create
      case CreateFailed => (map[], users, moved)
      case Created(uid) =>
        if saveOk then (map[], users[uid := map["name" := d.name, "email" := d.email]], true)
        else (map[], users, moved)
  }

  /** The screen: the loading flag, the visible error texts, the password
      toggles, the `users` collection and whether it moved on to login. */
  class RegisterActivity {
    var loading: bool
    var errors: map<ErrorView, string>
    var isPasswordVisible: bool
    var isConfirmPasswordVisible: bool
    var users: map<string, map<string, string>>
    var movedToLogin: bool

    constructor (users: map<string, map<string, string>>)
      ensures !loading && errors == map[] && !isPasswordVisible && !isConfirmPasswordVisible
      ensures this.users == users && !movedToLogin
    {
      loading := false;
      errors := map[];
      isPasswordVisible := false;
      isConfirmPasswordVisible := false;
      this.users := users;
      movedToLogin := false;
    }

    method TogglePassword()
      modifies this
      ensures isPasswordVisible == !old(isPasswordVisible)
      ensures isConfirmPasswordVisible == old(isConfirmPasswordVisible)
      ensures loading == old(loading) && errors == old(errors) && users == old(users)
      ensures movedToLogin == old(movedToLogin)
    {
      isPasswordVisible := !isPasswordVisible;
    }

    method ToggleConfirmPassword()
      modifies this
      ensures isConfirmPasswordVisible == !old(isConfirmPasswordVisible)
      ensures isPasswordVisible == old(isPasswordVisible)
      ensures loading == old(loading) && errors == old(errors) && users == old(users)
      ensures movedToLogin == old(movedToLogin)
    {
      isConfirmPasswordVisible := !isConfirmPasswordVisible;
    }

    /** `registerUser` with the auth result and the outcome of the `users`
        write given. The loading state is off again at the end on every
        path; a user document is written only for a created account. */
    method RegisterUser(name: string, email: string, password: string, confirm: string,
                        isValidEmail: string -> bool, create: CreateResult, saveOk: bool)
      modifies this
      ensures !loading
      ensures RegisterOutcome(DecideRegistration(name, email, password, confirm, isValidEmail), create, saveOk,
                      old(users), old(movedToLogin)) == (errors, users, movedToLogin)
      ensures isPasswordVisible == old(isPasswordVisible)
      ensures isConfirmPasswordVisible == old(isConfirmPasswordVisible)
    {
      errors := map[];
      loading := true;
      var d := DecideRegistration(name, email, password, confirm, isValidEmail);
      Finish(d, create, saveOk);
    }

    /** The part of `registerUser` after the checks: show the rejection, or
        follow the account creation and the `users` write. */
    method Finish(d: RegisterDecision, create: CreateResult, saveOk: bool)
      modifies this
      ensures !loading
      ensures RegisterOutcome(d, create, saveOk, old(users), old(movedToLogin)) == (errors, users, movedToLogin)
      ensures isPasswordVisible == old(isPasswordVisible)
      ensures isConfirmPasswordVisible == old(isConfirmPasswordVisible)
    {
      loading := false;
      if d.Rejected? {
        errors := map[d.view := d.message];
        return;
      }
      errors := map[];
      match create {
        case CreateFailed =>
        case Created(uid) =>
          if saveOk {
            users := users[uid := map["name" := d.name, "email" := d.email]];
            movedToLogin := true;
          }
      }
    }
  }
}
