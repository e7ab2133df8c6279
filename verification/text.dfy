/**
 The three Python built-ins the orchestrator leans on: `str.strip()`,
 `int(str)` and `str(int)`. Strings are sequences of code points.
 */
module Text {
  import opened Wrappers

  /** A code point that Python's `str.isspace()` accepts. */
  predicate IsSpace(c: char) {
    || ('\t' <= c <= '\r')              // tab, line feed, vertical tab, form feed, carriage return
    || ('\U{1C}' <= c <= ' ')           // the four information separators and space
    || c == '\U{85}' || c == '\U{A0}' || c == '\U{1680}'
    || ('\U{2000}' <= c <= '\U{200A}')
    || c == '\U{2028}' || c == '\U{2029}' || c == '\U{202F}' || c == '\U{205F}' || c == '\U{3000}'
  }

  predicate AllSpace(s: string) {
    forall i :: 0 <= i < |s| ==> IsSpace(s[i])
  }

  predicate IsDigit(c: char) {
    '0' <= c <= '9'
  }

  predicate AllDigits(s: string) {
    forall i :: 0 <= i < |s| ==> IsDigit(s[i])
  }

  /** No decimal digit anywhere in `s`: prose, an apology, the empty reply. */
  predicate NoDigit(s: string) {
    forall i :: 0 <= i < |s| ==> !IsDigit(s[i])
  }

  /** `s` is `t` with whitespace, and only whitespace, around it. */
  ghost predicate PaddedBy(s: string, t: string) {
    exists i {:trigger s[..i]} :: 0 <= i <= |s| - |t| && AllSpace(s[..i]) && s[i..i + |t|] == t && AllSpace(s[i + |t|..])
  }

  /** Neither end of `t` is whitespace. */
  predicate Trimmed(t: string) {
    t == [] || (!IsSpace(t[0]) && !IsSpace(t[|t| - 1]))
  }

  // ---------------------------------------------------------------------------
  // str.strip()
  // ---------------------------------------------------------------------------

  /** The length of the whitespace run that opens `s`. */
  function LeadingSpaces(s: string): (k: nat)
    ensures k <= |s|
    ensures forall i :: 0 <= i < k ==> IsSpace(s[i])
    ensures k == |s| || !IsSpace(s[k])
  {
    if |s| == 0 || !IsSpace(s[0]) then 0 else 1 + LeadingSpaces(s[1..])
  }

  /** The length of the whitespace run that closes `s`. */
  function TrailingSpaces(s: string): (k: nat)
    ensures k <= |s|
    ensures forall i :: |s| - k <= i < |s| ==> IsSpace(s[i])
    ensures k == |s| || !IsSpace(s[|s| - 1 - k])
  {
    if |s| == 0 || !IsSpace(s[|s| - 1]) then 0 else 1 + TrailingSpaces(s[..|s| - 1])
  }

  /** Python's `s.strip()`: `s` without its leading and trailing whitespace. */
  function Strip(s: string): (r: string)
    ensures Trimmed(r)
    ensures PaddedBy(s, r)
  {
    var a := LeadingSpaces(s);
    var rest := s[a..];
    var b := TrailingSpaces(rest);
    var r := rest[..|rest| - b];
    assert s[a..a + |r|] == r;
    assert AllSpace(s[..a]);
    assert s[a + |r|..] == rest[|rest| - b..];
    assert AllSpace(rest[|rest| - b..]);
    r
  }

  /** Padding is removed whatever it is, and nothing else is: `Strip` is the only trimmed core. */
  lemma {:induction false} StripRemovesPadding(w1: string, t: string, w2: string)
    requires AllSpace(w1) && AllSpace(w2) && Trimmed(t)
    ensures Strip(w1 + t + w2) == t
  {
    var s := w1 + t + w2;
    var a := LeadingSpaces(s);
    if t == [] {
      assert AllSpace(s);
      assert a == |s|;
    } else {
      assert s[|w1|] == t[0];
      assert a == |w1|;
      var rest := s[a..];
      assert rest == t + w2;
      var b := TrailingSpaces(rest);
      assert rest[|t| - 1] == t[|t| - 1];
      assert b == |w2|;
      assert rest[..|rest| - b] == t;
    }
  }

  // ---------------------------------------------------------------------------
  // str(int)
  // ---------------------------------------------------------------------------

  function DigitValue(c: char): nat
    requires IsDigit(c)
  {
    (c as int) - ('0' as int)
  }

  function DigitChar(d: nat): (c: char)
    requires d < 10
    ensures IsDigit(c) && DigitValue(c) == d
  {
    (('0' as int) + d) as char
  }

  /** The number a run of decimal digits denotes, most significant first. */
  function DigitsValue(s: string): nat
    requires AllDigits(s)
  {
    if s == [] then 0 else DigitsValue(s[..|s| - 1]) * 10 + DigitValue(s[|s| - 1])
  }

  /** Python's `str(n)` for `n >= 0`: shortest decimal form, no leading zero. */
  function NatToString(n: nat): (s: string)
    ensures |s| >= 1 && AllDigits(s)
    ensures s[0] == '0' ==> n == 0
  {
    if n < 10 then [DigitChar(n)] else NatToString(n / 10) + [DigitChar(n % 10)]
  }

  /** Python's `str(n)` for any integer. */
  function IntToString(n: int): (s: string)
    ensures |s| >= 1
    ensures n < 0 <==> s[0] == '-'
  {
    if n < 0 then "-" + NatToString(-n) else NatToString(n)
  }

  /** Reading back a rendered natural number gives the number. */
  lemma {:induction false} NatToStringRoundTrip(n: nat)
    ensures DigitsValue(NatToString(n)) == n
  {
    if n >= 10 {
      NatToStringRoundTrip(n / 10);
      var s := NatToString(n);
      assert s[..|s| - 1] == NatToString(n / 10);
    }
  }

  /** Different numbers are rendered differently. */
  lemma NatToStringInjective(a: nat, b: nat)
    ensures NatToString(a) == NatToString(b) <==> a == b
  {
    NatToStringRoundTrip(a);
    NatToStringRoundTrip(b);
  }

  // ---------------------------------------------------------------------------
  // int(str)
  // ---------------------------------------------------------------------------

  /** The literals `int()` accepts here: an optional sign, then one or more ASCII digits. */
  predicate IsIntLiteral(s: string) {
    if |s| > 0 && (s[0] == '+' || s[0] == '-') then |s| > 1 && AllDigits(s[1..])
    else |s| > 0 && AllDigits(s)
  }

  /** Python's `int(s)` on an already stripped string; None where Python raises ValueError. */
  function ParseInt(s: string): (r: Option<int>)
    ensures r.Some? <==> IsIntLiteral(s)
    ensures r.Some? && s[0] == '-' ==> r.value <= 0
    ensures r.Some? && s[0] != '-' ==> r.value >= 0
  {
    if |s| == 0 then None
    else if s[0] == '+' || s[0] == '-' then
      var body := s[1..];
      if |body| > 0 && AllDigits(body) then
        var v: int := DigitsValue(body);
        Some(if s[0] == '-' then -v else v)
      else None
    else if AllDigits(s) then Some(DigitsValue(s))
    else None
  }

  /** `int(str(n)) == n` for every integer, zero and negatives included. */
  lemma ParseIntRoundTrip(n: int)
    ensures ParseInt(IntToString(n)) == Some(n)
  {
    if n < 0 {
      var digits := NatToString(-n);
      var s := "-" + digits;
      assert s == IntToString(n);
      assert s[1..] == digits;
      NatToStringRoundTrip(-n);
      var v: int := DigitsValue(digits);
      assert ParseInt(s) == Some(-v);
    } else {
      var s := NatToString(n);
      assert s == IntToString(n);
      assert IsDigit(s[0]);
      NatToStringRoundTrip(n);
      assert ParseInt(s) == Some(DigitsValue(s));
    }
  }

  /**
   Every accepted literal reads as its digits' value: a bare or "+"-signed run
   gives the value, a "-"-signed run its negation ("+5" is 5, "-0" is 0).
   */
  lemma ParseIntValue(d: string)
    requires |d| > 0 && AllDigits(d)
    ensures ParseInt(d) == Some(DigitsValue(d) as int)
    ensures ParseInt("+" + d) == Some(DigitsValue(d) as int)
    ensures ParseInt("-" + d) == Some(-(DigitsValue(d) as int))
  {
    assert IsDigit(d[0]);
    SignedValue('+', d);
    SignedValue('-', d);
  }

  /** A signed literal reads as its digits' value, negated under "-". */
  lemma SignedValue(sign: char, d: string)
    requires sign == '+' || sign == '-'
    requires |d| > 0 && AllDigits(d)
    ensures ParseInt([sign] + d) == Some(if sign == '-' then -(DigitsValue(d) as int) else DigitsValue(d) as int)
  {
    var s := [sign] + d;
    assert s[0] == sign;
    assert s[1..] == d;
  }

  /** Leading zeros do not change a digit run's value ("05" is 5). */
  lemma {:induction false} LeadingZeroIgnored(d: string)
    requires AllDigits(d)
    ensures AllDigits("0" + d) && DigitsValue("0" + d) == DigitsValue(d)
  {
    var z := "0" + d;
    if d != [] {
      assert z[..|z| - 1] == "0" + d[..|d| - 1];
      LeadingZeroIgnored(d[..|d| - 1]);
    }
  }

  /** Text without a digit is never an integer literal. */
  lemma NoDigitRejected(s: string)
    requires NoDigit(s)
    ensures ParseInt(s) == None
  {
  }

  /** Stripping keeps only characters of the input, so it cannot create a digit. */
  lemma StripKeepsNoDigit(s: string)
    requires NoDigit(s)
    ensures NoDigit(Strip(s))
  {
  }

  /** A rendered integer has no whitespace at either end. */
  lemma IntToStringTrimmed(n: int)
    ensures Trimmed(IntToString(n))
  {
  }
}
