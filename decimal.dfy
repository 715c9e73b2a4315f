// Decimal text of integers, as Go's `%d` / `strconv.Itoa` write it and as
// the parser reads digit runs back.
module Decimal {

  predicate IsDigit(c: char) { '0' <= c <= '9' }

  function DigitChar(d: nat): (c: char)
    requires d < 10
    ensures IsDigit(c)
  {
    "0123456789"[d]
  }

  function DigitValue(c: char): (d: nat)
    requires IsDigit(c)
    ensures d < 10
  {
    (c as int - '0' as int) as nat
  }

  /** The decimal numeral of `n`, most significant digit first, without
      leading zeros. */
  function NatToString(n: nat): string
  {
    if n < 10 then [DigitChar(n)] else NatToString(n / 10) + [DigitChar(n % 10)]
  }

  /** Go's `%d` of a signed integer. */
  function IntToString(i: int): string
  {
    if i < 0 then "-" + NatToString(-i) else NatToString(i)
  }

  predicate AllDigits(s: string) { forall k :: 0 <= k < |s| ==> IsDigit(s[k]) }

  /** The value of a run of decimal digits (an empty run is 0). */
  function DigitsToNat(s: string): nat
    requires AllDigits(s)
  {
    if s == [] then 0 else DigitsToNat(s[..|s| - 1]) * 10 + DigitValue(s[|s| - 1])
  }

  /** A numeral is a non-empty run of digits and reads back as its value. */
  lemma {:induction false} NatToStringRoundTrip(n: nat)
    ensures |NatToString(n)| > 0 && AllDigits(NatToString(n))
    ensures DigitsToNat(NatToString(n)) == n
  {
    if n >= 10 {
      NatToStringRoundTrip(n / 10);
      var s := NatToString(n);
      assert s[..|s| - 1] == NatToString(n / 10);
    }
  }

  /** Distinct numbers have distinct numerals. */
  lemma NatToStringInjective(a: nat, b: nat)
    requires NatToString(a) == NatToString(b)
    ensures a == b
  {
    NatToStringRoundTrip(a);
    NatToStringRoundTrip(b);
  }

  /** `prefix + "." + numeral` determines both the prefix and the number,
      because the numeral holds no dot. */
  lemma DottedNameInjective(p1: string, k1: nat, p2: string, k2: nat)
    requires p1 + "." + NatToString(k1) == p2 + "." + NatToString(k2)
    ensures p1 == p2 && k1 == k2
  {
    SeparatedNameInjective(p1, k1, p2, k2, '.');
  }

  /** `prefix + [sep] + numeral` determines both the prefix and the number
      for any separator that is not a digit: the numeral cannot hold it. */
  lemma SeparatedNameInjective(p1: string, k1: nat, p2: string, k2: nat, sep: char)
    requires !IsDigit(sep)
    requires p1 + [sep] + NatToString(k1) == p2 + [sep] + NatToString(k2)
    ensures p1 == p2 && k1 == k2
  {
    var s1, s2 := NatToString(k1), NatToString(k2);
    NatToStringRoundTrip(k1);
    NatToStringRoundTrip(k2);
    var w := p1 + [sep] + s1;
    SeparatedLayout(p1, s1, sep);
    SeparatedLayout(p2, s2, sep);
    if |p1| < |p2| {
      assert false;
    } else if |p2| < |p1| {
      assert false;
    } else {
      assert p1 == w[..|p1|] == p2;
      assert s1 == w[|p1| + 1..] == s2;
      NatToStringInjective(k1, k2);
    }
  }

  lemma SeparatedLayout(p: string, s: string, sep: char)
    ensures |p + [sep] + s| == |p| + 1 + |s|
    ensures (p + [sep] + s)[|p|] == sep
    ensures forall j :: |p| < j < |p + [sep] + s| ==> (p + [sep] + s)[j] == s[j - |p| - 1]
  {
  }

  /** Go's `%d` tells all integers apart: a leading '-' marks exactly the
      negative ones. */
  lemma IntToStringInjective(a: int, b: int)
    requires IntToString(a) == IntToString(b)
    ensures a == b
  {
    NatToStringRoundTrip(if a < 0 then -a else a);
    NatToStringRoundTrip(if b < 0 then -b else b);
    var s := IntToString(a);
    if a < 0 && b < 0 {
      assert NatToString(-a) == s[1..] == NatToString(-b);
      NatToStringInjective(-a, -b);
    } else if a >= 0 && b >= 0 {
      NatToStringInjective(a, b);
    } else {
      NumeralStartsWithDigit(if a < 0 then b else a);
      assert false;
    }
  }

  lemma NumeralStartsWithDigit(n: nat)
    ensures |NatToString(n)| > 0 && IsDigit(NatToString(n)[0])
  {
    NatToStringRoundTrip(n);
  }
}
