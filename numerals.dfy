/**
 * The two number conversions the controller relies on, restricted to plain
 * decimal text: `parseInt` (a leading sign, then the longest run of decimal
 * digits; NaN when there is none) and `String(n)` for integers.
 */
module Numerals {
  import opened Wrappers

  predicate IsDigit(c: char) {
    '0' <= c <= '9'
  }

  function DigitValue(c: char): (d: nat)
    requires IsDigit(c)
    ensures d < 10
  {
    c as int - '0' as int
  }

  function DigitChar(d: nat): (c: char)
    requires d < 10
    ensures IsDigit(c) && DigitValue(c) == d
  {
    ('0' as int + d) as char
  }

  predicate AllDigits(s: string) {
    forall i :: 0 <= i < |s| ==> IsDigit(s[i])
  }

  /** Non-empty text of decimal digits only: the text `isNaN` treats as a number here. */
  predicate IsDecimal(s: string) {
    |s| > 0 && AllDigits(s)
  }

  /** The value of a run of decimal digits (most significant first). */
  function DecimalValue(s: string): nat
    requires AllDigits(s)
    decreases |s|
  {
    if s == [] then 0 else 10 * DecimalValue(s[..|s| - 1]) + DigitValue(s[|s| - 1])
  }

  /** `String(n)` for a natural number: its decimal digits, no leading zero. */
  function NatToString(n: nat): (s: string)
    ensures IsDecimal(s)
    ensures n > 0 ==> s[0] != '0'
    decreases n
  {
    if n < 10 then [DigitChar(n)] else NatToString(n / 10) + [DigitChar(n % 10)]
  }

  /** `String(n)` for any integer. */
  function IntToString(n: int): string {
    if n < 0 then "-" + NatToString(-n) else NatToString(n)
  }

  /** Reading back the digits `String` writes gives the number again. */
  lemma {:induction false} DecimalRoundTrip(n: nat)
    ensures DecimalValue(NatToString(n)) == n
    decreases n
  {
    if n >= 10 {
      DecimalRoundTrip(n / 10);
      var s := NatToString(n);
      assert s[..|s| - 1] == NatToString(n / 10);
    }
  }

  /** The longest prefix of `s` made of decimal digits. */
  function DigitPrefix(s: string): (p: string)
    ensures AllDigits(p) && p <= s
    ensures |p| < |s| ==> !IsDigit(s[|p|])
    ensures AllDigits(s) ==> p == s
  {
    if s != [] && IsDigit(s[0]) then [s[0]] + DigitPrefix(s[1..]) else []
  }

  /** The sign-free part of `s`: `s` without one leading `+` or `-`. */
  function Unsigned(s: string): string {
    if |s| > 0 && (s[0] == '-' || s[0] == '+') then s[1..] else s
  }

  /**
   * `parseInt(raw)`: `None` is NaN. An absent parameter (`undefined`) is NaN;
   * otherwise an optional sign is followed by the longest digit run, and text
   * without a leading digit run is NaN.
   */
  function ParseInt(raw: Option<string>): (r: Option<int>)
    ensures raw.None? ==> r.None?
    ensures raw.Some? ==> (r.Some? <==> |Unsigned(raw.value)| > 0 && IsDigit(Unsigned(raw.value)[0]))
    ensures raw.Some? && IsDecimal(raw.value) ==> r == Some(DecimalValue(raw.value))
  {
    match raw
    case None => None
    case Some(s) =>
      var digits := DigitPrefix(Unsigned(s));
      if digits == [] then None
      else if |s| > 0 && s[0] == '-' then Some(-(DecimalValue(digits) as int))
      else Some(DecimalValue(digits))
  }

  /** `parseInt(String(n)) == n` for every integer, negative ones included. */
  lemma ParseIntRoundTrip(n: int)
    ensures ParseInt(Some(IntToString(n))) == Some(n)
  {
    var m: nat := if n < 0 then -n else n;
    DecimalRoundTrip(m);
    var digits := NatToString(m);
    var s := IntToString(n);
    if n < 0 {
      assert s == "-" + digits && s[0] == '-' && s[1..] == digits;
    } else {
      assert s == digits && IsDigit(s[0]);
    }
    assert Unsigned(s) == digits;
  }
}
