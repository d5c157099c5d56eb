/**
 * Base-10 spelling and reading of integers: what JavaScript's
 * `Number.prototype.toString(10)` and C's `%d` print for an integer, and
 * what `parseInt(s, 10)` reads back from a string of ASCII digits.
 */
module Decimal {

  import opened Wrappers

  function Pow10(k: nat): (r: nat)
    ensures r >= 1
  {
    if k == 0 then 1 else 10 * Pow10(k - 1)
  }

  predicate IsDigit(c: char) {
    '0' <= c <= '9'
  }

  predicate AllDigits(s: string) {
    forall i :: 0 <= i < |s| ==> IsDigit(s[i])
  }

  function DigitValue(c: char): (d: nat)
    requires IsDigit(c)
    ensures d < 10
  {
    (c as int) - ('0' as int)
  }

  function DigitChar(d: nat): (c: char)
    requires d < 10
    ensures IsDigit(c) && DigitValue(c) == d
  {
    (('0' as int) + d) as char
  }

  /** The shortest base-10 spelling of a non-negative integer: digits only, no leading zero. */
  function NatToDecimal(n: nat): (s: string)
    ensures 1 <= |s| && AllDigits(s)
    ensures s[0] == '0' ==> n == 0 && s == "0"
    decreases n
  {
    if n < 10 then [DigitChar(n)] else NatToDecimal(n / 10) + [DigitChar(n % 10)]
  }

  /** The value of a string of ASCII digits, most significant first; below 10^|s|. */
  function DigitsToNat(s: string): (n: nat)
    requires AllDigits(s)
    ensures n < Pow10(|s|)
  {
    if s == [] then 0
    else
      var init := DigitsToNat(s[..|s| - 1]);
      assert init * 10 <= (Pow10(|s| - 1) - 1) * 10;
      init * 10 + DigitValue(s[|s| - 1])
  }

  /** Reading back a spelling gives the number spelt. */
  lemma {:induction false} DigitsToNatOfDecimal(n: nat)
    ensures DigitsToNat(NatToDecimal(n)) == n
  {
    var s := NatToDecimal(n);
    if n >= 10 {
      DigitsToNatOfDecimal(n / 10);
      assert s[..|s| - 1] == NatToDecimal(n / 10);
    }
  }

  /** A spelling has at most k digits exactly when the number is below 10^k. */
  lemma {:induction false} DecimalLength(n: nat, k: nat)
    requires k >= 1
    ensures |NatToDecimal(n)| <= k <==> n < Pow10(k)
    decreases n
  {
    if n >= 10 {
      if k == 1 {
        assert |NatToDecimal(n)| >= 2;
      } else {
        DecimalLength(n / 10, k - 1);
        assert n / 10 < Pow10(k - 1) <==> n < Pow10(k);
      }
    }
  }

  /** Spelling the value of a digit string without a superfluous leading zero gives that string back. */
  lemma {:induction false} DecimalOfDigitsToNat(s: string)
    requires 1 <= |s| && AllDigits(s)
    requires s[0] == '0' ==> |s| == 1
    ensures NatToDecimal(DigitsToNat(s)) == s
    decreases |s|
  {
    var init := s[..|s| - 1];
    if |s| > 1 {
      DecimalOfDigitsToNat(init);
      var n := DigitsToNat(s);
      assert n / 10 == DigitsToNat(init) && n % 10 == DigitValue(s[|s| - 1]);
      assert DigitsToNat(init) >= 1 by {
        DigitsToNatLeading(init);
      }
      assert s == init + [s[|s| - 1]];
    }
  }

  /** A digit string that does not start with zero has a non-zero value. */
  lemma {:induction false} DigitsToNatLeading(s: string)
    requires 1 <= |s| && AllDigits(s) && s[0] != '0'
    ensures DigitsToNat(s) >= Pow10(|s| - 1)
    decreases |s|
  {
    if |s| > 1 {
      DigitsToNatLeading(s[..|s| - 1]);
    } else {
      assert DigitsToNat(s) == DigitValue(s[0]);
    }
  }

  /** What `%d` and `toString(10)` print for an integer: a minus sign before negative values. */
  function IntToDecimal(n: int): (s: string)
    ensures 1 <= |s|
    ensures n >= 0 <==> AllDigits(s)
    ensures n < 0 <==> s[0] == '-'
    ensures n < 0 ==> AllDigits(s[1..])
  {
    if n < 0 then
      var s := "-" + NatToDecimal(-n);
      assert !IsDigit(s[0]) && s[1..] == NatToDecimal(-n);
      s
    else NatToDecimal(n)
  }

  /** Reads an optionally signed decimal string. */
  function ParseInt(s: string): (r: Option<int>)
    ensures r.Some? <==> (1 <= |s| && AllDigits(s)) || (2 <= |s| && s[0] == '-' && AllDigits(s[1..]))
  {
    if 1 <= |s| && AllDigits(s) then Some(DigitsToNat(s))
    else if 2 <= |s| && s[0] == '-' && AllDigits(s[1..]) then Some(-(DigitsToNat(s[1..]) as int))
    else None
  }

  /** The signed spelling reads back as the same integer. */
  lemma IntToDecimalRoundTrip(n: int)
    ensures ParseInt(IntToDecimal(n)) == Some(n)
  {
    if n < 0 {
      var s := IntToDecimal(n);
      assert !AllDigits(s) && s[1..] == NatToDecimal(-n);
      DigitsToNatOfDecimal(-n);
    } else {
      DigitsToNatOfDecimal(n);
    }
  }

  /** A C `int` prints in at most 11 characters: a sign and ten digits. */
  lemma Int32DecimalLength(n: int)
    requires -0x8000_0000 <= n < 0x8000_0000
    ensures |IntToDecimal(n)| <= 11
  {
    assert Pow10(10) == 10_000_000_000;
    if n < 0 {
      DecimalLength(-n, 10);
    } else {
      DecimalLength(n, 10);
    }
  }
}
