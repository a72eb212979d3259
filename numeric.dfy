/**
 * Numeric helpers the dashboard relies on from its host language: rounding a
 * number to a fixed count of decimal places (`round(x, n)`) and writing an
 * integer in decimal (`str(n)`, as used by an f-string).
 *
 * Numbers are exact reals here, so `RoundTo` is the ideal rounding of the
 * exact value: to the nearest multiple of 10^-n, ties to the even multiple.
 */
module Numeric {

  /** 10 raised to `d`. */
  function Pow10(d: nat): (r: nat)
    ensures r >= 1
  {
    if d == 0 then 1 else 10 * Pow10(d - 1)
  }

  /** The integer nearest to `y`; a tie goes to the even neighbour. */
  function RoundHalfEven(y: real): (n: int)
    ensures n as real - 0.5 <= y <= n as real + 0.5
    ensures y == n as real + 0.5 || y == n as real - 0.5 ==> n % 2 == 0
  {
    var f := y.Floor;
    var frac := y - f as real;
    if frac < 0.5 then f
    else if frac > 0.5 then f + 1
    else if f % 2 == 0 then f
    else f + 1
  }

  /** Scaling back an integer that lies within one half of `x * p`. */
  lemma UnscaleBounds(x: real, p: real, n: real)
    requires p > 0.0 && x * p - 0.5 <= n <= x * p + 0.5
    ensures x - 0.5 / p <= n / p <= x + 0.5 / p
    ensures n / p * p == n
  {
    var d := n - x * p;
    assert n / p == x + d / p by {
      assert n == (x + d / p) * p;
    }
    assert d / p <= 0.5 / p by {
      assert 0.5 / p - d / p == (0.5 - d) / p;
    }
    assert -(0.5 / p) <= d / p by {
      assert d / p + 0.5 / p == (d + 0.5) / p;
    }
  }

  /** The integer `n` scaled back by `p`, where `n` is `x * p` rounded. */
  function Unscale(x: real, p: real, n: int): (r: real)
    requires p > 0.0 && x * p - 0.5 <= n as real <= x * p + 0.5
    ensures x - 0.5 / p <= r <= x + 0.5 / p
    ensures n == 0 ==> r == 0.0
  {
    UnscaleBounds(x, p, n as real);
    n as real / p
  }

  /** `round(x, digits)`: `x` rounded to the nearest multiple of 10^-digits. */
  function RoundTo(x: real, digits: nat): (r: real)
    ensures x - 0.5 / Pow10(digits) as real <= r <= x + 0.5 / Pow10(digits) as real
  {
    var p := Pow10(digits) as real;
    Unscale(x, p, RoundHalfEven(x * p))
  }

  /** Zero is left unchanged by rounding. */
  lemma RoundZero(digits: nat)
    ensures RoundTo(0.0, digits) == 0.0
  {
    var p := Pow10(digits) as real;
    assert 0.0 * p == 0.0;
    assert RoundHalfEven(0.0) == 0;
  }

  /** The character of a decimal digit. */
  function DigitChar(d: nat): (c: char)
    requires d < 10
    ensures '0' <= c <= '9'
  {
    (48 + d) as char
  }

  predicate IsDigits(s: string) {
    forall k :: 0 <= k < |s| ==> '0' <= s[k] <= '9'
  }

  /** `str(n)` for a non-negative integer: its decimal digits, no leading zero. */
  function NatToDecimal(n: nat): (s: string)
    ensures |s| >= 1 && IsDigits(s)
    ensures |s| > 1 ==> s[0] != '0'
    ensures n > 0 ==> s[0] != '0'
  {
    if n < 10 then [DigitChar(n)] else NatToDecimal(n / 10) + [DigitChar(n % 10)]
  }

  /** `str(i)` for any integer: a minus sign before the digits of a negative one. */
  function IntToDecimal(i: int): (s: string)
    ensures |s| >= 1
    ensures s[0] == '-' <==> i < 0
  {
    if i < 0 then "-" + NatToDecimal(-i) else NatToDecimal(i)
  }

  /**
   * `str(i)` is exactly the decimal notation of `i`: its digits read back as
   * |i|, there is no leading zero, and a minus sign comes first when `i < 0`.
   */
  lemma IntToDecimalDigits(i: int)
    ensures i >= 0 ==> IsDigits(IntToDecimal(i)) && DecimalValue(IntToDecimal(i)) == i
    ensures i < 0 ==> IsDigits(IntToDecimal(i)[1..]) && DecimalValue(IntToDecimal(i)[1..]) == -i
    ensures i == 0 ==> IntToDecimal(i) == "0"
    ensures i > 0 ==> IntToDecimal(i)[0] != '0'
    ensures i < 0 ==> |IntToDecimal(i)| >= 2 && IntToDecimal(i)[1] != '0'
  {
    if i < 0 {
      DecimalRoundTrip(-i);
      assert IntToDecimal(i)[1..] == NatToDecimal(-i);
    } else {
      DecimalRoundTrip(i);
    }
  }

  /** Reading a string of decimal digits back as a number (the inverse of NatToDecimal). */
  function DecimalValue(s: string): nat
    requires IsDigits(s)
  {
    if s == [] then 0 else 10 * DecimalValue(s[..|s| - 1]) + (s[|s| - 1] as int - 48)
  }

  lemma {:induction false} DecimalRoundTrip(n: nat)
    ensures DecimalValue(NatToDecimal(n)) == n
  {
    if n >= 10 {
      var s := NatToDecimal(n);
      assert s[..|s| - 1] == NatToDecimal(n / 10);
      DecimalRoundTrip(n / 10);
    }
  }

  /** Distinct non-negative integers are written differently. */
  lemma NatToDecimalInjective(a: nat, b: nat)
    requires NatToDecimal(a) == NatToDecimal(b)
    ensures a == b
  {
    DecimalRoundTrip(a);
    DecimalRoundTrip(b);
  }

  /** Distinct integers are written differently. */
  lemma IntToDecimalInjective(a: int, b: int)
    ensures IntToDecimal(a) == IntToDecimal(b) ==> a == b
  {
    var s, t := IntToDecimal(a), IntToDecimal(b);
    if s == t {
      // The leading minus sign tells both numbers are on the same side of zero.
      assert a < 0 <==> b < 0;
      if a < 0 {
        assert NatToDecimal(-a) == s[1..];
        assert NatToDecimal(-b) == t[1..];
        NatToDecimalInjective(-a, -b);
      } else {
        NatToDecimalInjective(a, b);
      }
    }
  }
}
