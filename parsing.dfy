/**
 * The string conversions the components and routes apply to user input:
 * `parseInt` (query parameters), `parseFloat` (form fields), `trim`,
 * `toLowerCase` and `includes` (the food search). A result of `None` is NaN.
 */
module Parsing {
  import opened Wrappers

  predicate IsDigit(c: char) { '0' <= c <= '9' }

  /** White space that `parseInt`, `parseFloat` and `trim` skip. */
  predicate IsSpace(c: char) { c == ' ' || c == '\t' || c == '\n' || c == '\r' || c == '\U{B}' || c == '\U{C}' }

  function DigitValue(c: char): (v: nat)
    requires IsDigit(c)
    ensures v < 10
  {
    c as int - '0' as int
  }

  function DigitChar(v: nat): (c: char)
    requires v < 10
    ensures IsDigit(c) && DigitValue(c) == v
  {
    ('0' as int + v) as char
  }

  /** `s` with its leading white space removed. */
  function SkipSpace(s: string): (r: string)
    ensures |r| <= |s| && r == s[|s| - |r|..]
    ensures r == [] || !IsSpace(r[0])
    ensures forall i :: 0 <= i < |s| - |r| ==> IsSpace(s[i])
  {
    if s != [] && IsSpace(s[0]) then SkipSpace(s[1..]) else s
  }

  /** The length of the longest run of digits at the start of `s`. */
  function DigitRun(s: string): (n: nat)
    ensures n <= |s|
    ensures forall i :: 0 <= i < n ==> IsDigit(s[i])
    ensures n < |s| ==> !IsDigit(s[n])
  {
    if s != [] && IsDigit(s[0]) then 1 + DigitRun(s[1..]) else 0
  }

  /** The value of a string of decimal digits, most significant first. */
  function DigitsValue(ds: string): nat
    requires forall i :: 0 <= i < |ds| ==> IsDigit(ds[i])
  {
    if ds == [] then 0 else DigitsValue(ds[..|ds| - 1]) * 10 + DigitValue(ds[|ds| - 1])
  }

  function Pow10(k: nat): (p: nat)
    ensures p >= 1
  {
    if k == 0 then 1 else 10 * Pow10(k - 1)
  }

  /** The sign prefix `+`/`-` that both parsers accept: its length and its factor. */
  function SignOf(s: string): (r: (nat, int))
    ensures r.0 <= 1 && r.0 <= |s| && (r.1 == 1 || r.1 == -1)
    ensures r.1 == -1 <==> s != [] && s[0] == '-'
  {
    if s != [] && s[0] == '-' then (1, -1)
    else if s != [] && s[0] == '+' then (1, 1)
    else (0, 1)
  }

  /** The longest run of digits at the start of `rest`, as a number; no digit is NaN. */
  function UnsignedIntPrefix(rest: string): (r: Option<nat>)
    ensures r.None? <==> DigitRun(rest) == 0
  {
    var n := DigitRun(rest);
    if n == 0 then None else Some(DigitsValue(rest[..n]))
  }

  /**
   * `parseInt(s)` in base 10: leading white space, an optional sign, then the
   * longest run of digits; no digit at all is NaN.
   */
  function ParseInt(s: string): (r: Option<int>)
    ensures r.None? <==> var t := SkipSpace(s); DigitRun(t[SignOf(t).0..]) == 0
    ensures r.Some? && r.value < 0 ==> SkipSpace(s) != [] && SkipSpace(s)[0] == '-'
  {
    var t := SkipSpace(s);
    var sign := SignOf(t);
    match UnsignedIntPrefix(t[sign.0..])
    case None => None
    case Some(v) => Some(if sign.1 == -1 then -(v as int) else v as int)
  }

  /** Digits, optionally a point and more digits, at the start of `rest`; no digit at all is NaN. */
  function UnsignedDecimalPrefix(rest: string): (r: Option<real>)
    ensures DigitRun(rest) > 0 ==> r.Some?
    ensures r.Some? ==> r.value >= 0.0
  {
    var n := DigitRun(rest);
    var whole := DigitsValue(rest[..n]) as real;
    if n < |rest| && rest[n] == '.' then
      var frac := rest[n + 1..];
      var m := DigitRun(frac);
      if n + m == 0 then None
      else Some(whole + DigitsValue(frac[..m]) as real / Pow10(m) as real)
    else if n == 0 then None
    else Some(whole)
  }

  /**
   * `parseFloat(s)` for decimal literals: leading white space, an optional
   * sign, digits, optionally a point and more digits; at least one digit is
   * needed, otherwise the result is NaN.
   */
  function ParseFloat(s: string): (r: Option<real>)
    ensures ParseInt(s).Some? ==> r.Some?
    ensures r.Some? && r.value < 0.0 ==> SkipSpace(s) != [] && SkipSpace(s)[0] == '-'
  {
    var t := SkipSpace(s);
    var sign := SignOf(t);
    match UnsignedDecimalPrefix(t[sign.0..])
    case None => None
    case Some(v) => Some(if sign.1 == -1 then -v else v)
  }

  /** The decimal notation of a natural number (`n.toString()`). */
  function NatToString(n: nat): (s: string)
    ensures s != [] && forall i :: 0 <= i < |s| ==> IsDigit(s[i])
  {
    if n < 10 then [DigitChar(n)] else NatToString(n / 10) + [DigitChar(n % 10)]
  }

  lemma {:induction false} DigitsValueOfNatToString(n: nat)
    ensures DigitsValue(NatToString(n)) == n
  {
    var s := NatToString(n);
    if n >= 10 {
      DigitsValueOfNatToString(n / 10);
      assert s[..|s| - 1] == NatToString(n / 10);
    }
  }

  lemma {:induction false} DigitRunOfDigits(s: string)
    requires forall i :: 0 <= i < |s| ==> IsDigit(s[i])
    ensures DigitRun(s) == |s|
  {
    if s != [] {
      DigitRunOfDigits(s[1..]);
    }
  }

  /** A string of digits is read whole: no white space or sign is skipped. */
  lemma DigitsAreTheNumeral(s: string)
    requires s != [] && forall i :: 0 <= i < |s| ==> IsDigit(s[i])
    ensures SkipSpace(s) == s && SignOf(s) == (0, 1) && s[SignOf(s).0..] == s
    ensures DigitRun(s) == |s| && s[..DigitRun(s)] == s
  {
    assert !IsSpace(s[0]);
    DigitRunOfDigits(s);
  }

  /** `parseInt` reads back what `toString` writes for a natural number. */
  lemma ParseIntNatToString(n: nat)
    ensures ParseInt(NatToString(n)) == Some(n)
  {
    var s := NatToString(n);
    DigitsAreTheNumeral(s);
    DigitsValueOfNatToString(n);
    assert UnsignedIntPrefix(s) == Some(n);
  }

  /** `parseFloat` reads back what `toString` writes for a natural number. */
  lemma ParseFloatNatToString(n: nat)
    ensures ParseFloat(NatToString(n)) == Some(n as real)
  {
    var s := NatToString(n);
    DigitsAreTheNumeral(s);
    DigitsValueOfNatToString(n);
    assert UnsignedDecimalPrefix(s) == Some(n as real);
  }

  /** A string without any digit parses to NaN, the empty string included. */
  lemma ParseNeedsADigit(s: string)
    requires forall i :: 0 <= i < |s| ==> !IsDigit(s[i])
    ensures ParseFloat(s) == None && ParseInt(s) == None
  {
    var t := SkipSpace(s);
    var rest := t[SignOf(t).0..];
    assert forall i :: 0 <= i < |rest| ==> !IsDigit(rest[i]) by {
      forall i | 0 <= i < |rest| ensures !IsDigit(rest[i]) {
        assert rest[i] == s[|s| - |t| + SignOf(t).0 + i];
      }
    }
    assert DigitRun(rest) == 0;
    if 0 < |rest| && rest[0] == '.' {
      var frac := rest[1..];
      assert |frac| > 0 ==> frac[0] == rest[1];
      assert DigitRun(frac) == 0;
    }
  }

  // --- text operations of the food search and form validation ---

  /** `s.trim()` is empty. */
  predicate IsBlank(s: string)
  {
    forall i :: 0 <= i < |s| ==> IsSpace(s[i])
  }

  function LowerChar(c: char): char
  {
    if 'A' <= c <= 'Z' then (c as int + 32) as char else c
  }

  /** `s.toLowerCase()` on ASCII letters. */
  function ToLower(s: string): (r: string)
    ensures |r| == |s| && forall i :: 0 <= i < |s| ==> r[i] == LowerChar(s[i])
  {
    seq(|s|, i requires 0 <= i < |s| => LowerChar(s[i]))
  }

  /** `t` occurs in `s` starting at position `i`. */
  predicate OccursAt(s: string, t: string, i: int)
  {
    0 <= i && i + |t| <= |s| && s[i..i + |t|] == t
  }

  /** `s.includes(t)`. */
  predicate Contains(s: string, t: string)
  {
    exists i | 0 <= i <= |s| - |t| :: OccursAt(s, t, i)
  }

  /** Every string includes the empty string. */
  lemma ContainsEmpty(s: string)
    ensures Contains(s, [])
  {
    assert OccursAt(s, [], 0);
  }
}
