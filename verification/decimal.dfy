/**
 * Decimal text for integers, as JavaScript produces and reads it:
 * a template literal `${n}` turns a non-negative integer into its digits,
 * and `parseInt(s)` reads the integer at the front of a string.
 */
module Decimal {
  import opened Options

  predicate IsDigit(c: char) {
    '0' <= c <= '9'
  }

  predicate AllDigits(s: string) {
    forall i :: 0 <= i < |s| ==> IsDigit(s[i])
  }

  function DigitValue(c: char): (d: nat)
    requires IsDigit(c)
    ensures d < 10
  {
    c as int - '0' as int
  }

  function DigitChar(d: nat): (c: char)
    requires d < 10
    ensures IsDigit(c) && DigitValue(c) == d
  {
    (d + '0' as int) as char
  }

  /** The value of a string of decimal digits, most significant first. */
  function DigitsValue(s: string): nat
    requires AllDigits(s)
  {
    if s == [] then 0 else DigitsValue(s[..|s| - 1]) * 10 + DigitValue(s[|s| - 1])
  }

  /** `${n}` for a non-negative integer: its digits without leading zeros. */
  function ToDecimal(n: nat): (s: string)
    ensures |s| >= 1 && AllDigits(s)
    ensures s[0] == '0' ==> n == 0
    decreases n
  {
    if n < 10 then [DigitChar(n)] else ToDecimal(n / 10) + [DigitChar(n % 10)]
  }

  /** Reading back the digits of `n` gives `n`. */
  lemma {:induction false} ToDecimalValue(n: nat)
    ensures DigitsValue(ToDecimal(n)) == n
    decreases n
  {
    if n >= 10 {
      var p := ToDecimal(n / 10);
      var s := ToDecimal(n);
      assert s[..|s| - 1] == p;
      ToDecimalValue(n / 10);
    }
  }

  /** The longest prefix of `s` made of digits. */
  function LeadingDigits(s: string): (p: string)
    ensures |p| <= |s| && p == s[..|p|] && AllDigits(p)
    ensures |p| == |s| || !IsDigit(s[|p|])
  {
    if s == [] || !IsDigit(s[0]) then [] else [s[0]] + LeadingDigits(s[1..])
  }

  /** A digit string followed by something that does not start with a digit: the digits are the prefix. */
  lemma {:induction false} LeadingDigitsOfDigits(p: string, rest: string)
    requires AllDigits(p)
    requires rest == [] || !IsDigit(rest[0])
    ensures LeadingDigits(p + rest) == p
  {
    if p != [] {
      assert (p + rest)[1..] == p[1..] + rest;
      LeadingDigitsOfDigits(p[1..], rest);
    }
  }

  /**
   * `parseInt(s)` with no radix, on a string with no leading white space:
   * an optional sign, then the digits at the front. `None` stands for NaN,
   * the answer when no digit follows the sign.
   */
  function ParseInt(s: string): (r: Option<int>)
    ensures r.None? <==> LeadingDigits(if s != [] && (s[0] == '-' || s[0] == '+') then s[1..] else s) == []
    ensures r.Some? && s[0] == '-' ==> r.value <= 0
    ensures r.Some? && s[0] != '-' ==> r.value >= 0
  {
    var negative := s != [] && s[0] == '-';
    var body := if s != [] && (s[0] == '-' || s[0] == '+') then s[1..] else s;
    var digits := LeadingDigits(body);
    var magnitude: int := if digits == [] then 0 else DigitsValue(digits);
    if digits == [] then None
    else if negative then Some(-magnitude)
    else Some(magnitude)
  }

  /** `parseInt` reads back what `${n}` wrote, whatever text follows that does not start with a digit. */
  lemma ParseIntOfDecimal(n: nat, rest: string)
    requires rest == [] || !IsDigit(rest[0])
    ensures ParseInt(ToDecimal(n) + rest) == Some(n)
  {
    var s := ToDecimal(n) + rest;
    assert s[0] == ToDecimal(n)[0];
    LeadingDigitsOfDigits(ToDecimal(n), rest);
    ToDecimalValue(n);
  }

  /** The integer part of a decimal amount such as "12.99": `parseInt` drops the fraction. */
  lemma ParseIntDropsFraction(whole: nat, fraction: string)
    ensures ParseInt(ToDecimal(whole) + "." + fraction) == Some(whole)
  {
    assert ToDecimal(whole) + "." + fraction == ToDecimal(whole) + ("." + fraction);
    ParseIntOfDecimal(whole, "." + fraction);
  }
}
