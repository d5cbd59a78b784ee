/**
 * The few JavaScript string and number conversions the modelled code relies on:
 * `String(n)` for non-negative integers, `Number(text)`, `startsWith`, `slice`
 * and `toLowerCase`.
 */
module JsText {
  import opened Wrappers

  predicate IsDigit(c: char) {
    '0' <= c <= '9'
  }

  predicate AllDigits(s: string) {
    forall i :: 0 <= i < |s| ==> IsDigit(s[i])
  }

  function DigitChar(d: nat): (c: char)
    requires d < 10
    ensures IsDigit(c) && c as int - '0' as int == d
  {
    ('0' as int + d) as char
  }

  /** `String(n)`: the decimal numeral of n, without leading zeros. */
  function Decimal(n: nat): (s: string)
    ensures |s| >= 1 && AllDigits(s)
  {
    if n < 10 then [DigitChar(n)] else Decimal(n / 10) + [DigitChar(n % 10)]
  }

  /** The value of a numeral made of decimal digits (the empty numeral is 0). */
  function DigitsValue(s: string): nat
    requires AllDigits(s)
  {
    if |s| == 0 then 0
    else DigitsValue(s[..|s| - 1]) * 10 + (s[|s| - 1] as int - '0' as int)
  }

  /**
   * `Number(text)` for the texts this code writes and reads back: the empty text is 0,
   * a run of decimal digits (optionally after `-`) is that integer, and any other text
   * is NaN (`None`).
   */
  function StringToNumber(s: string): (r: Option<real>)
    ensures s == "" ==> r == Some(0.0)
    ensures |s| > 0 && AllDigits(s) ==> r == Some(DigitsValue(s) as real)
    ensures r.Some? ==> r.value.Floor as real == r.value
  {
    if s == "" then Some(0.0)
    else if AllDigits(s) then Some(DigitsValue(s) as real)
    else if s[0] == '-' && |s| > 1 && AllDigits(s[1..]) then Some((0 - DigitsValue(s[1..]) as int) as real)
    else None
  }

  lemma {:induction false} DecimalValue(n: nat)
    ensures DigitsValue(Decimal(n)) == n
  {
    if n >= 10 {
      var s := Decimal(n);
      assert s[..|s| - 1] == Decimal(n / 10);
      DecimalValue(n / 10);
    }
  }

  /** `Number(String(n)) == n`: a numeral this code writes reads back as the same number. */
  lemma DecimalRoundTrip(n: nat)
    ensures StringToNumber(Decimal(n)) == Some(n as real)
  {
    DecimalValue(n);
  }

  /** Distinct numbers have distinct numerals. */
  lemma DecimalInjective(m: nat, n: nat)
    requires Decimal(m) == Decimal(n)
    ensures m == n
  {
    DecimalValue(m);
    DecimalValue(n);
  }

  /** `s.startsWith(p)` */
  predicate StartsWith(s: string, p: string) {
    |p| <= |s| && s[..|p|] == p
  }

  /** `s.slice(n)` for n >= 0: the text after the first n characters, or "" when s is shorter. */
  function SliceFrom(s: string, n: nat): (r: string)
    ensures |s| >= n ==> s == s[..n] + r
    ensures |s| < n ==> r == ""
  {
    if n <= |s| then s[n..] else ""
  }

  function LowerChar(c: char): (r: char)
    ensures 'A' <= c <= 'Z' ==> 'a' <= r <= 'z'
    ensures !('A' <= c <= 'Z') ==> r == c
  {
    if 'A' <= c <= 'Z' then (c as int + 32) as char else c
  }

  /** `s.toLowerCase()` for the ASCII letters A-Z. */
  function ToLower(s: string): (r: string)
    ensures |r| == |s|
    ensures forall i :: 0 <= i < |s| ==> r[i] == LowerChar(s[i])
  {
    if s == [] then [] else [LowerChar(s[0])] + ToLower(s[1..])
  }
}
