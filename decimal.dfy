/** Decimal rendering of integers, as `operator<<` on a `std::stringstream` writes an `int`. */
module Decimal {
  import opened Wrappers

  predicate IsDigit(c: char) {
    '0' <= c <= '9'
  }

  predicate AllDigits(s: string) {
    forall i :: 0 <= i < |s| ==> IsDigit(s[i])
  }

  function DigitChar(d: nat): (c: char)
    requires d < 10
    ensures IsDigit(c) && DigitValue(c) == d
  {
    (('0' as int) + d) as char
  }

  function DigitValue(c: char): nat
    requires IsDigit(c)
  {
    (c as int) - ('0' as int)
  }

  /** The digits of `n`, most significant first, without leading zeros. */
  function NatToString(n: nat): (s: string)
    ensures |s| > 0 && AllDigits(s)
    ensures |s| > 1 ==> s[0] != '0'
    decreases n
  {
    if n < 10 then [DigitChar(n)] else NatToString(n / 10) + [DigitChar(n % 10)]
  }

  /** What `ss << k` appends for an `int` k: a minus sign for negatives, then the digits. */
  function IntToString(k: int): (s: string)
    ensures |s| > 0
    ensures s[0] == '-' <==> k < 0
    ensures k >= 0 ==> AllDigits(s)
    ensures k < 0 ==> AllDigits(s[1..])
  {
    if k < 0 then "-" + NatToString(-k) else NatToString(k)
  }

  /** Reads a non-empty digit string back as a number. */
  function ParseNat(s: string): nat
    requires |s| > 0 && AllDigits(s)
    decreases |s|
  {
    if |s| == 1 then DigitValue(s[0])
    else ParseNat(s[..|s| - 1]) * 10 + DigitValue(s[|s| - 1])
  }

  /** Reads an optionally signed decimal integer; anything else is None. */
  function ParseInt(s: string): Option<int> {
    if |s| > 0 && s[0] == '-' then
      if |s| > 1 && AllDigits(s[1..]) then Some(0 - (ParseNat(s[1..]) as int)) else None
    else if |s| > 0 && AllDigits(s) then Some(ParseNat(s))
    else None
  }

  lemma {:induction false} ParseNatToString(n: nat)
    ensures ParseNat(NatToString(n)) == n
    decreases n
  {
    if n >= 10 {
      var s := NatToString(n);
      assert s[..|s| - 1] == NatToString(n / 10);
      ParseNatToString(n / 10);
    }
  }

  /** The decimal text of every integer reads back as that integer. */
  lemma IntToStringRoundTrip(k: int)
    ensures ParseInt(IntToString(k)) == Some(k)
  {
    var s := IntToString(k);
    if k < 0 {
      var digits := NatToString(-k);
      assert s == "-" + digits && s[1..] == digits;
      ParseNatToString(-k);
      assert ParseInt(s) == Some(0 - (ParseNat(digits) as int));
    } else {
      assert s == NatToString(k) && s[0] != '-';
      ParseNatToString(k);
      assert ParseInt(s) == Some(ParseNat(s));
    }
  }

  /** Different integers render differently. */
  lemma IntToStringInjective(j: int, k: int)
    requires j != k
    ensures IntToString(j) != IntToString(k)
  {
    IntToStringRoundTrip(j);
    IntToStringRoundTrip(k);
  }
}
