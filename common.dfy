/** Helpers shared by every screen and service of the food app model:
    nullable values, the two string trims of the JVM, ASCII case folding,
    substring search, Java `long` subtraction and truncating division, and
    decimal rendering of counts. */
module Common {

  /** A Java or Kotlin reference that may be null. */
  datatype Option<T> = None | Some(value: T)

  /** The outcome of a remote call: its value, or the error's message. */
  datatype Result<T> = Success(value: T) | Failure(error: string)

  // ---------------------------------------------------------------------
  // Trimming

  /** Characters removed by Java's `String.trim()`: every code unit up to U+0020. */
  predicate JavaSpace(c: char) { c <= ' ' }

  /** Characters removed by Kotlin's `trim()` / tested by `isBlank()`:
      `Character.isWhitespace(c) || Character.isSpaceChar(c)`. */
  predicate KotlinSpace(c: char)
  {
    c == ' ' || ('\t' <= c <= '\r') || ('\U{1C}' <= c <= '\U{1F}')
    || c == '\U{A0}' || c == '\U{1680}' || ('\U{2000}' <= c <= '\U{200A}')
    || c == '\U{2028}' || c == '\U{2029}' || c == '\U{202F}' || c == '\U{205F}'
    || c == '\U{3000}'
  }

  /** Drops the leading characters that satisfy `ws`. */
  function TrimStart(s: string, ws: char -> bool): (r: string)
    ensures |r| <= |s| && r == s[|s| - |r|..]
    ensures forall i :: 0 <= i < |s| - |r| ==> ws(s[i])
    ensures r == [] || !ws(r[0])
  {
    if |s| > 0 && ws(s[0]) then
      var r := TrimStart(s[1..], ws);
      assert forall i :: 1 <= i < |s| ==> s[1..][i - 1] == s[i];
      r
    else s
  }

  /** Drops the trailing characters that satisfy `ws`. */
  function TrimEnd(s: string, ws: char -> bool): (r: string)
    ensures |r| <= |s| && r == s[..|r|]
    ensures forall i :: |r| <= i < |s| ==> ws(s[i])
    ensures r == [] || !ws(r[|r| - 1])
  {
    if |s| > 0 && ws(s[|s| - 1]) then TrimEnd(s[..|s| - 1], ws) else s
  }

  function Trim(s: string, ws: char -> bool): (r: string)
    ensures |r| <= |s|
    ensures r == [] || (!ws(r[0]) && !ws(r[|r| - 1]))
  {
    TrimEnd(TrimStart(s, ws), ws)
  }

  /** Java `s.trim()`. */
  function JavaTrim(s: string): string { Trim(s, JavaSpace) }

  /** Kotlin `s.trim()`. */
  function KotlinTrim(s: string): string { Trim(s, KotlinSpace) }

  /** Kotlin `s.isBlank()` (and Java's `s.trim().isEmpty()` for `JavaSpace`). */
  predicate Blank(s: string, ws: char -> bool) { forall i :: 0 <= i < |s| ==> ws(s[i]) }

  /** Trimming leaves nothing exactly when every character is blank. */
  lemma {:induction false} TrimEmptyIffBlank(s: string, ws: char -> bool)
    ensures Trim(s, ws) == [] <==> Blank(s, ws)
  {
    var t := TrimStart(s, ws);
    if t == [] {
    } else {
      assert !ws(t[0]);
      assert TrimEnd(t, ws) != [];
      assert !ws(s[|s| - |t|]);
    }
  }

  /** Trimming twice is trimming once. */
  lemma TrimIdempotent(s: string, ws: char -> bool)
    ensures Trim(Trim(s, ws), ws) == Trim(s, ws)
  {
    var r := Trim(s, ws);
    assert TrimStart(r, ws) == r;
  }

  // ---------------------------------------------------------------------
  // Case folding and search

  function LowerChar(c: char): char
  {
    if 'A' <= c <= 'Z' then (c as int + 32) as char else c
  }

  function UpperChar(c: char): char
  {
    if 'a' <= c <= 'z' then (c as int - 32) as char else c
  }

  /** `toLowerCase()` restricted to ASCII letters. */
  function Lower(s: string): (r: string)
    ensures |r| == |s|
    ensures forall i :: 0 <= i < |s| ==> r[i] == LowerChar(s[i])
  {
    seq(|s|, i requires 0 <= i < |s| => LowerChar(s[i]))
  }

  /** Java `s.contains(sub)`. */
  predicate Contains(s: string, sub: string)
  {
    exists i :: 0 <= i <= |s| - |sub| && OccursAt(s, sub, i)
  }

  predicate OccursAt(s: string, sub: string, i: int)
    requires 0 <= i <= |s| - |sub|
  {
    s[i..i + |sub|] == sub
  }

  lemma ContainsEmpty(s: string)
    ensures Contains(s, "")
  {
    assert OccursAt(s, "", 0);
  }

  /** `field != null && field.toLowerCase().contains(lowerQuery)`: the clause
      every client-side search filter of the app repeats per field. */
  predicate FieldMatches(field: Option<string>, lowerQuery: string)
  {
    field.Some? && Contains(Lower(field.value), lowerQuery)
  }

  // ---------------------------------------------------------------------
  // Filtering a list in order

  /** The elements of `xs` that satisfy `p`, in their order: what every
      search loop of the app builds by appending each match to a new list. */
  function Keep<T>(xs: seq<T>, p: T -> bool): (r: seq<T>)
    ensures |r| <= |xs|
  {
    if xs == [] then []
    else Keep(xs[..|xs| - 1], p) + (if p(xs[|xs| - 1]) then [xs[|xs| - 1]] else [])
  }

  /** One more element examined. */
  lemma KeepStep<T>(xs: seq<T>, i: int, p: T -> bool)
    requires 0 <= i < |xs|
    ensures Keep(xs[..i + 1], p) == Keep(xs[..i], p) + (if p(xs[i]) then [xs[i]] else [])
  {
    assert xs[..i + 1][..i] == xs[..i];
  }

  /** An element is kept exactly when it is in the list and satisfies `p`. */
  lemma {:induction false} KeepMembers<T>(xs: seq<T>, p: T -> bool, x: T)
    ensures x in Keep(xs, p) <==> x in xs && p(x)
  {
    if xs != [] {
      var init := xs[..|xs| - 1];
      KeepMembers(init, p, x);
      assert xs == init + [xs[|xs| - 1]];
    }
  }

  /** Filtering a concatenation filters each part: the order is kept. */
  lemma {:induction false} KeepAppend<T>(a: seq<T>, b: seq<T>, p: T -> bool)
    ensures Keep(a + b, p) == Keep(a, p) + Keep(b, p)
  {
    if b != [] {
      var init := b[..|b| - 1];
      KeepAppend(a, init, p);
      assert (a + b)[..|a + b| - 1] == a + init;
    } else {
      assert a + b == a;
    }
  }

  /** When every element satisfies `p`, nothing is dropped. */
  lemma {:induction false} KeepAll<T>(xs: seq<T>, p: T -> bool)
    requires forall i :: 0 <= i < |xs| ==> p(xs[i])
    ensures Keep(xs, p) == xs
  {
    if xs != [] {
      KeepAll(xs[..|xs| - 1], p);
    }
  }

  // ---------------------------------------------------------------------
  // E-mail prefix

  /** Java `email.split("@")[0]`: the empty string for "", the part before the
      first '@' otherwise, and an ArrayIndexOutOfBoundsException (None) when the
      string is non-empty and made only of '@', since `split` then drops every
      (empty) piece. */
  function EmailPrefix(email: string): (r: Option<string>)
    ensures r.None? <==> (|email| > 0 && forall i :: 0 <= i < |email| ==> email[i] == '@')
    ensures r.Some? ==> '@' !in r.value && r.value <= email
    ensures r.Some? && |r.value| < |email| ==> email[|r.value|] == '@'
  {
    if email == "" then Some("")
    else if forall i :: 0 <= i < |email| ==> email[i] == '@' then None
    else Some(BeforeAt(email))
  }

  function BeforeAt(s: string): (r: string)
    ensures '@' !in r && r <= s
    ensures |r| < |s| ==> s[|r|] == '@'
  {
    if s == [] || s[0] == '@' then [] else [s[0]] + BeforeAt(s[1..])
  }

  // ---------------------------------------------------------------------
  // Java `long` arithmetic

  const LONG_MIN: int := -0x8000_0000_0000_0000
  const LONG_MAX: int := 0x7FFF_FFFF_FFFF_FFFF

  /** A value a Java `long` can hold. */
  type Long = x: int | LONG_MIN <= x <= LONG_MAX

  /** Java `a - b` on `long`, wrapping modulo 2^64. */
  function LongSub(a: Long, b: Long): (r: Long)
    ensures LONG_MIN <= a - b <= LONG_MAX ==> r == a - b
    ensures (r - (a - b)) % 0x1_0000_0000_0000_0000 == 0
  {
    var d := a - b;
    if d > LONG_MAX then d - 0x1_0000_0000_0000_0000
    else if d < LONG_MIN then d + 0x1_0000_0000_0000_0000
    else d
  }

  /** Java integer division `a / b` for a positive divisor: rounds toward zero. */
  function JDiv(a: int, b: int): (q: int)
    requires b > 0
    ensures a >= 0 ==> q == a / b
    ensures a < 0 ==> q == -((-a) / b) && q <= 0
    ensures -b < a < b ==> q == 0
  {
    if a >= 0 then
      (if a < b then DivSmall(a, b); a / b else a / b)
    else
      var m := -a;
      if m < b then DivSmall(m, b); -(m / b) else -(m / b)
  }

  /** Rounding toward zero is symmetric: the quotient of the negated
      operand is the negated quotient. */
  lemma JDivNegate(a: int, b: int)
    requires b > 0
    ensures JDiv(-a, b) == -JDiv(a, b)
  {
  }

  lemma DivSmall(m: int, b: int)
    requires 0 <= m < b
    ensures m / b == 0
  {
  }

  /** Java `(int) x` for a float/double value within int range: truncation toward zero. */
  function TruncToInt(x: real): (r: int)
    ensures x >= 0.0 ==> r as real <= x < r as real + 1.0
    ensures x < 0.0 ==> r as real - 1.0 < x <= r as real
  {
    if x >= 0.0 then x.Floor else -((-x).Floor)
  }

  // ---------------------------------------------------------------------
  // Decimal rendering (`String.valueOf(long)` / string templates)

  function Digit(d: int): char
    requires 0 <= d < 10
  {
    "0123456789"[d]
  }

  function DigitValue(c: char): int { c as int - '0' as int }

  /** Reads back a string of decimal digits. */
  function DecimalValue(s: string): int
  {
    if s == [] then 0 else DecimalValue(s[..|s| - 1]) * 10 + DigitValue(s[|s| - 1])
  }

  predicate IsDigits(s: string) { forall i :: 0 <= i < |s| ==> '0' <= s[i] <= '9' }

  /** The decimal form of a non-negative number, no leading zero. */
  function NatToString(n: nat): (r: string)
    ensures |r| >= 1 && IsDigits(r)
    ensures DecimalValue(r) == n
    ensures |r| > 1 ==> r[0] != '0'
  {
    if n < 10 then
      DigitRoundTrip(n);
      [Digit(n)]
    else
      var p := NatToString(n / 10);
      AppendDigit(p, n % 10);
      p + [Digit(n % 10)]
  }

  lemma DigitRoundTrip(d: int)
    requires 0 <= d < 10
    ensures '0' <= Digit(d) <= '9' && DigitValue(Digit(d)) == d
  {
  }

  /** Appending a digit multiplies the value by ten and adds the digit. */
  lemma AppendDigit(p: string, d: int)
    requires 0 <= d < 10 && IsDigits(p)
    ensures IsDigits(p + [Digit(d)])
    ensures DecimalValue(p + [Digit(d)]) == DecimalValue(p) * 10 + d
    ensures |p| >= 1 ==> (p + [Digit(d)])[0] == p[0]
  {
    DigitRoundTrip(d);
    assert (p + [Digit(d)])[..|p|] == p;
  }

  /** `String.valueOf(n)` for a Java int or long. */
  function IntToString(n: int): (r: string)
    ensures n >= 0 ==> r == NatToString(n)
    ensures n < 0 ==> r == "-" + NatToString(-n)
  {
    if n >= 0 then NatToString(n) else "-" + NatToString(-n)
  }
}
