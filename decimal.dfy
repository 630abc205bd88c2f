/**
 * Decimal text of an `int`, as `std::ostream << int` writes it with the
 * default flags: an optional leading '-', then the digits of the magnitude,
 * most significant first, without leading zeros.  `ParseInt` reads such
 * text back, so the formatting is shown to lose nothing.
 */
module Decimal {
  import opened Options

  predicate IsDigit(c: char) {
    '0' <= c <= '9'
  }

  predicate AllDigits(s: string) {
    forall i :: 0 <= i < |s| ==> IsDigit(s[i])
  }

  function DigitChar(d: nat): (c: char)
    requires d < 10
    ensures IsDigit(c) && c as int - '0' as int == d
  {
    ('0' as int + d) as char
  }

  function DigitValue(c: char): nat
    requires IsDigit(c)
  {
    c as int - '0' as int
  }

  /** The decimal digits of n, most significant first. */
  function NatToString(n: nat): (s: string)
    ensures |s| > 0
    decreases n
  {
    if n < 10 then [DigitChar(n)] else NatToString(n / 10) + [DigitChar(n % 10)]
  }

  /** The text of n is all digits, with a leading '0' only for 0 itself. */
  lemma {:induction false} NatToStringDigits(n: nat)
    ensures AllDigits(NatToString(n))
    ensures NatToString(n)[0] == '0' <==> n == 0
    decreases n
  {
    if n >= 10 {
      NatToStringDigits(n / 10);
    }
  }

  /** The text `os << x` writes: a minus sign in front of negative numbers, digits everywhere else. */
  function IntToString(x: int): (s: string)
    ensures |s| > 0
  {
    if x < 0 then "-" + NatToString(-x) else NatToString(x)
  }

  /** The text of x is digits throughout, except for a minus sign in front when x is negative. */
  lemma IntToStringChars(x: int)
    ensures var s := IntToString(x);
      IsDigit(s[|s| - 1]) &&
      (s[0] == '-' <==> x < 0) &&
      forall i :: 0 <= i < |s| ==> IsDigit(s[i]) || (i == 0 && s[i] == '-')
  {
    NatToStringDigits(if x < 0 then -x else x);
  }

  /** The number a string of digits denotes. */
  function DigitsValue(s: string): nat
    requires AllDigits(s)
    decreases |s|
  {
    if s == [] then 0 else 10 * DigitsValue(s[..|s| - 1]) + DigitValue(s[|s| - 1])
  }

  /** Reads an optionally negative decimal number; None for anything else. */
  function ParseInt(s: string): Option<int> {
    if |s| > 1 && s[0] == '-' && AllDigits(s[1..]) then Some(-(DigitsValue(s[1..]) as int))
    else if |s| > 0 && AllDigits(s) then Some(DigitsValue(s))
    else None
  }

  lemma {:induction false} NatToStringRoundTrip(n: nat)
    ensures AllDigits(NatToString(n)) && DigitsValue(NatToString(n)) == n
    decreases n
  {
    NatToStringDigits(n);
    if n >= 10 {
      var s := NatToString(n);
      assert s[..|s| - 1] == NatToString(n / 10);
      NatToStringRoundTrip(n / 10);
    }
  }

  /** Formatting an int and reading it back gives the same int. */
  lemma IntToStringRoundTrip(x: int)
    ensures ParseInt(IntToString(x)) == Some(x)
  {
    var s := IntToString(x);
    if x < 0 {
      assert s[1..] == NatToString(-x);
      NatToStringRoundTrip(-x);
    } else {
      NatToStringRoundTrip(x);
    }
  }

  /** Different numbers are written differently. */
  lemma IntToStringInjective(x: int, y: int)
    requires IntToString(x) == IntToString(y)
    ensures x == y
  {
    IntToStringRoundTrip(x);
    IntToStringRoundTrip(y);
  }
}
