/**
 * Decimal rendering of integers, as a JavaScript template literal `${n}` prints
 * safe integers, those of magnitude at most 2^53, which a double holds exactly.
 */
module Text {
  const Digits: string := "0123456789"

  function DigitChar(d: nat): (c: char)
    requires d < 10
  {
    Digits[d]
  }

  /** Value of a decimal digit character; -1 for any other character. */
  function DigitValue(c: char): (v: int)
    ensures -1 <= v < 10
    ensures v >= 0 ==> DigitChar(v) == c
  {
    if '0' <= c <= '9' then (c as int) - ('0' as int) else -1
  }

  lemma DigitRoundTrip(d: nat)
    requires d < 10
    ensures DigitValue(DigitChar(d)) == d
  {
  }

  /** Decimal digits of `n`, most significant first, with no leading zero. */
  function NatToString(n: nat): (s: string)
    ensures |s| > 0 && IsDigits(s)
    decreases n
  {
    if n < 10 then [DigitChar(n)] else NatToString(n / 10) + [DigitChar(n % 10)]
  }

  /** The integer as JavaScript prints it: a minus sign before the digits of a negative value. */
  function IntToString(i: int): (s: string)
    ensures i >= 0 ==> IsDigits(s) && s != [] && ParseNat(s) == i
    ensures i < 0 ==> |s| > 1 && s[0] == '-' && IsDigits(s[1..]) && ParseNat(s[1..]) == -i
  {
    var digits := NatToString(if i < 0 then -i else i);
    NatToStringRoundTrip(if i < 0 then -i else i);
    if i < 0 then
      assert ("-" + digits)[1..] == digits;
      "-" + digits
    else digits
  }

  predicate IsDigits(s: string)
  {
    forall k :: 0 <= k < |s| ==> 0 <= DigitValue(s[k])
  }

  /** Reads a sequence of decimal digits back as a number. */
  function ParseNat(s: string): (n: nat)
    requires IsDigits(s)
    decreases |s|
  {
    if s == [] then 0 else ParseNat(s[..|s| - 1]) * 10 + DigitValue(s[|s| - 1])
  }

  /** `NatToString` yields a non-empty digit string that reads back as the same number. */
  lemma {:induction false} NatToStringRoundTrip(n: nat)
    ensures |NatToString(n)| > 0 && IsDigits(NatToString(n))
    ensures ParseNat(NatToString(n)) == n
    decreases n
  {
    var s := NatToString(n);
    if n < 10 {
      DigitRoundTrip(n);
      assert s[..|s| - 1] == [];
    } else {
      NatToStringRoundTrip(n / 10);
      var p := NatToString(n / 10);
      DigitRoundTrip(n % 10);
      assert s == p + [DigitChar(n % 10)];
      assert s[..|s| - 1] == p;
      forall k | 0 <= k < |s| ensures 0 <= DigitValue(s[k]) {
        if k < |p| { assert s[k] == p[k]; }
      }
    }
  }

  /** Distinct numbers print differently. */
  lemma NatToStringInjective(a: nat, b: nat)
    requires NatToString(a) == NatToString(b)
    ensures a == b
  {
    NatToStringRoundTrip(a);
    NatToStringRoundTrip(b);
  }
}
