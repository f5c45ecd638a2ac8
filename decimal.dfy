/**
 * Decimal digit strings: the text JavaScript's `String()` gives an integer,
 * and the integer `parseInt()` reads back from a form field.
 */
module Decimal {
  import opened Wrappers

  predicate IsDigit(c: char) { '0' <= c <= '9' }

  predicate IsDigits(s: string) { forall i :: 0 <= i < |s| ==> IsDigit(s[i]) }

  /** The form `Number.prototype.toString()` gives a non-negative integer: no leading zero unless it is "0". */
  predicate IsCanonical(s: string) { |s| > 0 && IsDigits(s) && (s[0] == '0' ==> |s| == 1) }

  function DigitValue(c: char): (d: nat)
    requires IsDigit(c)
    ensures d < 10
  {
    c as int - '0' as int
  }

  function DigitChar(d: nat): (c: char)
    requires d < 10
    ensures IsDigit(c) && DigitValue(c) == d
  {
    ('0' as int + d) as char
  }

  /** The number a run of digits denotes, most significant digit first. */
  function DigitsValue(s: string): nat
    requires IsDigits(s)
    decreases |s|
  {
    if s == [] then 0 else DigitsValue(s[..|s| - 1]) * 10 + DigitValue(s[|s| - 1])
  }

  /** `String(n)` for a non-negative integer `n`; reading it back gives `n`. */
  function NatText(n: nat): (t: string)
    ensures IsCanonical(t)
    ensures DigitsValue(t) == n
  {
    if n < 10 then [DigitChar(n)]
    else
      var prefix := NatText(n / 10);
      var t := prefix + [DigitChar(n % 10)];
      assert t[..|t| - 1] == prefix;
      t
  }

  /** `String(n)` for any integer `n`. */
  function IntText(n: int): (t: string)
    ensures |t| > 0
  {
    if n < 0 then "-" + NatText(-n) else NatText(n)
  }

  /** A canonical digit string with a leading digit other than zero denotes a positive number. */
  lemma {:induction false} LeadingNonZeroIsPositive(s: string)
    requires IsDigits(s) && |s| > 0 && s[0] != '0'
    ensures DigitsValue(s) > 0
  {
    if |s| > 1 {
      LeadingNonZeroIsPositive(s[..|s| - 1]);
    }
  }

  /** Canonical digit strings survive a round trip through their value. */
  lemma {:induction false} NatTextOfDigits(s: string)
    requires IsCanonical(s)
    ensures NatText(DigitsValue(s)) == s
  {
    if |s| > 1 {
      var prefix := s[..|s| - 1];
      LeadingNonZeroIsPositive(prefix);
      NatTextOfDigits(prefix);
      assert s == prefix + [s[|s| - 1]];
    }
  }

  /** The longest prefix of `s` made of digits. */
  function LeadingDigits(s: string): (p: string)
    ensures IsDigits(p) && p <= s
    ensures |p| < |s| ==> !IsDigit(s[|p|])
  {
    if s != [] && IsDigit(s[0]) then [s[0]] + LeadingDigits(s[1..]) else []
  }

  lemma {:induction false} LeadingDigitsOfDigits(s: string)
    ensures IsDigits(s) ==> LeadingDigits(s) == s
  {
    if s != [] {
      LeadingDigitsOfDigits(s[1..]);
    }
  }

  /**
   * `parseInt(s)` in base ten: an optional sign, then the longest run of
   * digits; `None` stands for `NaN`, the result when no digit follows the sign.
   */
  function ParseInt(s: string): (r: Option<int>)
    ensures IsDigits(s) && s != [] ==> r == Some(DigitsValue(s))
    ensures r.None? <==> LeadingDigits(if s != [] && (s[0] == '-' || s[0] == '+') then s[1..] else s) == []
  {
    var negative := s != [] && s[0] == '-';
    var rest := if s != [] && (s[0] == '-' || s[0] == '+') then s[1..] else s;
    var digits := LeadingDigits(rest);
    var magnitude: int := if digits == [] then 0 else DigitsValue(digits);
    LeadingDigitsOfDigits(s);
    if digits == [] then None
    else if negative then Some(-magnitude)
    else Some(magnitude)
  }

  /** `parseInt(String(n)) == n` for every integer `n`. */
  lemma ParseIntOfText(n: int)
    ensures ParseInt(IntText(n)) == Some(n)
  {
    var m: nat := if n < 0 then -n else n;
    LeadingDigitsOfDigits(NatText(m));
    if n < 0 {
      assert IntText(n)[1..] == NatText(m);
    }
  }
}
