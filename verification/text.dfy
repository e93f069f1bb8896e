/** Ruby's `Integer#to_s` (base 10) and prefix tests on strings. */
module Text {

  function DigitChar(d: nat): (c: char)
    requires d < 10
    ensures '0' <= c <= '9'
    ensures c as int - '0' as int == d
  {
    ('0' as int + d) as char
  }

  predicate IsDigit(c: char) {
    '0' <= c <= '9'
  }

  predicate AllDigits(s: string) {
    forall i :: 0 <= i < |s| ==> IsDigit(s[i])
  }

  /** An optional '-' followed by digits: what `ParseInt` reads. */
  predicate IsDecimal(s: string) {
    |s| > 0 && (if s[0] == '-' then AllDigits(s[1..]) else AllDigits(s))
  }

  /** Digits without a leading zero, except "0" itself: how Ruby writes a
      non-negative integer. */
  predicate CanonicalNat(s: string) {
    |s| > 0 && AllDigits(s) && (s[0] == '0' ==> |s| == 1)
  }

  /** `Integer#to_s` form: canonical digits, with a '-' only before a
      non-zero magnitude (so neither "0302" nor "-0"). */
  predicate Canonical(s: string) {
    |s| > 0 && if s[0] == '-' then CanonicalNat(s[1..]) && s[1..] != "0" else CanonicalNat(s)
  }

  /** Decimal rendering of a natural number, most significant digit first,
      without leading zeros ("0" for zero). */
  function NatToString(n: nat): (s: string)
    ensures |s| > 0
    ensures forall i :: 0 <= i < |s| ==> IsDigit(s[i])
    ensures s[0] == '0' ==> n == 0
    ensures CanonicalNat(s)
    decreases n
  {
    if n < 10 then [DigitChar(n)] else NatToString(n / 10) + [DigitChar(n % 10)]
  }

  /** `Integer#to_s`: a leading '-' for negative numbers. */
  function IntToString(i: int): (s: string)
    ensures IsDecimal(s) && Canonical(s)
    ensures i < 0 <==> s[0] == '-'
  {
    if i < 0 then
      var digits := NatToString(-i);
      assert ("-" + digits)[1..] == digits;
      "-" + digits
    else NatToString(i)
  }

  /** Reads back a string of decimal digits. */
  function ParseNat(s: string): nat
    requires AllDigits(s)
  {
    if |s| == 0 then 0
    else
      assert IsDigit(s[|s| - 1]);
      ParseNat(s[..|s| - 1]) * 10 + (s[|s| - 1] as int - '0' as int)
  }

  /** Reads back the output of `IntToString`. */
  function ParseInt(s: string): int
    requires IsDecimal(s)
  {
    if s[0] == '-' then -(ParseNat(s[1..]) as int) else ParseNat(s)
  }

  lemma {:induction false} NatToStringRoundTrip(n: nat)
    ensures ParseNat(NatToString(n)) == n
    decreases n
  {
    if n >= 10 {
      var s := NatToString(n);
      NatToStringRoundTrip(n / 10);
      assert s[..|s| - 1] == NatToString(n / 10);
    }
  }

  /** The decimal rendering loses nothing: the number can be read back. */
  lemma IntToStringRoundTrip(i: int)
    ensures ParseInt(IntToString(i)) == i
  {
    if i < 0 {
      NatToStringRoundTrip(-i);
      assert IntToString(i)[1..] == NatToString(-i);
    } else {
      NatToStringRoundTrip(i);
    }
  }

  /** Distinct integers render as distinct strings. */
  lemma IntToStringInjective(i: int, j: int)
    requires IntToString(i) == IntToString(j)
    ensures i == j
  {
    IntToStringRoundTrip(i);
    IntToStringRoundTrip(j);
  }

  /** A canonical digit string is the rendering of the number it denotes. */
  lemma {:induction false} CanonicalNatIsToString(s: string)
    requires CanonicalNat(s)
    ensures NatToString(ParseNat(s)) == s
    decreases |s|
  {
    var init, last := s[..|s| - 1], s[|s| - 1];
    assert s == init + [last];
    var d := last as int - '0' as int;
    assert IsDigit(last);
    if |s| == 1 {
      assert init == [];
      assert ParseNat(s) == d;
    } else {
      assert init[0] == s[0] != '0';
      assert AllDigits(init) by {
        forall i | 0 <= i < |init| ensures IsDigit(init[i]) {
          assert init[i] == s[i];
        }
      }
      CanonicalNatIsToString(init);
      var m := ParseNat(init);
      assert m != 0;
      var n := ParseNat(s);
      assert n == m * 10 + d;
      assert n / 10 == m && n % 10 == d;
    }
  }

  /** A canonical decimal string is `Integer#to_s` of the integer it denotes,
      so the rendering of an integer is the only canonical string that
      reads back to it. */
  lemma CanonicalIsToString(s: string)
    requires Canonical(s)
    ensures IsDecimal(s) && IntToString(ParseInt(s)) == s
  {
    if s[0] == '-' {
      var digits := s[1..];
      CanonicalNatIsToString(digits);
      assert ParseNat(digits) != 0;
      assert s == "-" + digits;
    } else {
      CanonicalNatIsToString(s);
    }
  }

  predicate StartsWith(s: string, prefix: string) {
    |prefix| <= |s| && s[..|prefix|] == prefix
  }
}
