/**
 Decimal rendering of integers: format(int), which prints with "%d", and the
 `<<` of an int onto a string stream in the dash-array builder. Both write an
 optional minus sign followed by the digits without leading zeros.
 */
module Decimal {
  import opened Optional

  predicate IsDigit(c: char)
  {
    '0' <= c <= '9'
  }

  predicate AllDigits(s: string)
  {
    forall i :: 0 <= i < |s| ==> IsDigit(s[i])
  }

  function DigitChar(d: nat): (c: char)
    requires d < 10
    ensures IsDigit(c)
  {
    ('0' as int + d) as char
  }

  function DigitValue(c: char): (d: nat)
    requires IsDigit(c)
    ensures d < 10 && DigitChar(d) == c
  {
    c as int - '0' as int
  }

  /** The decimal digits of n, most significant first: never empty, all digits,
      and no leading zero unless n is zero itself. */
  function NatDigits(n: nat): (r: string)
    ensures |r| >= 1 && AllDigits(r)
    ensures r[0] == '0' <==> n == 0
    ensures n < 10 <==> |r| == 1
    decreases n
  {
    if n < 10 then [DigitChar(n)] else NatDigits(n / 10) + [DigitChar(n % 10)]
  }

  /** The value of a string of digits, read most significant first. */
  function DigitsValue(s: string): nat
    requires AllDigits(s)
    decreases |s|
  {
    if |s| == 0 then 0 else 10 * DigitsValue(s[..|s| - 1]) + DigitValue(s[|s| - 1])
  }

  /** Reading back the digits of n gives n. */
  lemma {:induction false} NatDigitsRoundTrip(n: nat)
    ensures DigitsValue(NatDigits(n)) == n
    decreases n
  {
    var s := NatDigits(n);
    if n >= 10 {
      assert s[..|s| - 1] == NatDigits(n / 10);
      NatDigitsRoundTrip(n / 10);
    }
  }

  /** format(int): the decimal text of i; a leading minus sign exactly for
      negative numbers, then digits only, with no leading zero. */
  function FormatInt(i: int): (r: string)
    ensures |r| >= 1
    ensures forall k :: 0 <= k < |r| ==> r[k] == '-' || IsDigit(r[k])
    ensures forall k :: 1 <= k < |r| ==> IsDigit(r[k])
    ensures r[0] == '-' <==> i < 0
    ensures |r| >= 2 ==> r[if i < 0 then 1 else 0] != '0'
  {
    if i < 0 then "-" + NatDigits(-i) else NatDigits(i)
  }

  /** Reads the text FormatInt writes: an optional minus sign and at least one digit. */
  function ParseInt(s: string): Option<int>
  {
    if |s| >= 2 && s[0] == '-' && AllDigits(s[1..]) then
      var magnitude: int := DigitsValue(s[1..]);
      Some(-magnitude)
    else if |s| >= 1 && AllDigits(s) then Some(DigitsValue(s) as int)
    else None
  }

  /** FormatInt loses nothing: parsing its text gives back the number. */
  lemma FormatIntRoundTrip(i: int)
    ensures ParseInt(FormatInt(i)) == Some(i)
  {
    if i < 0 {
      var digits := NatDigits(-i);
      assert ("-" + digits)[1..] == digits;
      NatDigitsRoundTrip(-i);
      assert ParseInt("-" + digits) == Some(-(DigitsValue(digits) as int));
    } else {
      var digits := NatDigits(i);
      assert digits[0] != '-';
      NatDigitsRoundTrip(i);
      assert ParseInt(digits) == Some(DigitsValue(digits) as int);
    }
  }

  /** Distinct numbers have distinct texts. */
  lemma FormatIntInjective(i: int, j: int)
    requires FormatInt(i) == FormatInt(j)
    ensures i == j
  {
    FormatIntRoundTrip(i);
    FormatIntRoundTrip(j);
  }
}
