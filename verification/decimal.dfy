/**
  Decimal rendering of integers, as Go's `%d` verb prints an `int`, and the
  strict parser that undoes it. The write request addresses the user as
  `user/<id>` with the id rendered this way.
 */
module Decimal {
  import opened Wrappers

  predicate IsDigit(c: char) {
    '0' <= c <= '9'
  }

  predicate AllDigits(s: string) {
    forall i :: 0 <= i < |s| ==> IsDigit(s[i])
  }

  /** A non-empty digit string without superfluous leading zeros. */
  predicate Canonical(s: string) {
    && |s| >= 1
    && AllDigits(s)
    && (s[0] == '0' ==> |s| == 1)
  }

  function DigitChar(d: nat): (c: char)
    requires d < 10
    ensures IsDigit(c)
    ensures c as int - '0' as int == d
  {
    (d + '0' as int) as char
  }

  function DigitValue(c: char): (d: nat)
    requires IsDigit(c)
    ensures d < 10
    ensures DigitChar(d) == c
  {
    c as int - '0' as int
  }

  /** The digits of `n`, most significant first. */
  function NatDigits(n: nat): (s: string)
    ensures Canonical(s)
    ensures s[0] == '0' <==> n == 0
    decreases n
  {
    if n < 10 then [DigitChar(n)] else NatDigits(n / 10) + [DigitChar(n % 10)]
  }

  /** Go's `%d`: a minus sign for negative values, then the digits of the magnitude. */
  function FormatInt(n: int): (s: string)
    ensures |s| >= 1
    ensures forall i :: 0 <= i < |s| ==> IsDigit(s[i]) || s[i] == '-'
    ensures s[0] == '-' <==> n < 0
  {
    if n < 0 then "-" + NatDigits(-n) else NatDigits(n)
  }

  /** The value of a digit string, read most significant digit first. */
  function DigitsValue(s: string): nat
    requires AllDigits(s)
  {
    if |s| == 0 then 0 else 10 * DigitsValue(s[..|s| - 1]) + DigitValue(s[|s| - 1])
  }

  /** Reads back what `FormatInt` writes; anything else, `-0` and leading zeros included, is refused. */
  function ParseInt(s: string): (r: Option<int>)
    ensures r.Some? ==> (|s| >= 1 && s[0] == '-' <==> r.value < 0)
  {
    if |s| >= 2 && s[0] == '-' && Canonical(s[1..]) && s[1] != '0' then
      LeadingDigitBound(s[1..]);
      Some(0 - DigitsValue(s[1..]))
    else if Canonical(s) then
      Some(DigitsValue(s))
    else
      None
  }

  lemma {:induction false} DigitsValueOfNatDigits(n: nat)
    ensures DigitsValue(NatDigits(n)) == n
    decreases n
  {
    if n >= 10 {
      var s := NatDigits(n);
      assert s[..|s| - 1] == NatDigits(n / 10);
      DigitsValueOfNatDigits(n / 10);
    }
  }

  lemma {:induction false} LeadingDigitBound(s: string)
    requires Canonical(s)
    ensures s[0] != '0' ==> DigitsValue(s) >= 1
    decreases |s|
  {
    if |s| > 1 {
      var p := s[..|s| - 1];
      assert p[0] == s[0];
      LeadingDigitBound(p);
    }
  }

  lemma {:induction false} NatDigitsOfDigitsValue(s: string)
    requires Canonical(s)
    ensures NatDigits(DigitsValue(s)) == s
    decreases |s|
  {
    if |s| > 1 {
      var p := s[..|s| - 1];
      var c := s[|s| - 1];
      assert p[0] == s[0];
      LeadingDigitBound(p);
      NatDigitsOfDigitsValue(p);
      var v := DigitsValue(s);
      assert v / 10 == DigitsValue(p) && v % 10 == DigitValue(c);
      assert s == p + [c];
    }
  }

  /** The parser accepts exactly the renderings of `FormatInt`, and recovers the value. */
  lemma ParseFormatInverse(s: string, n: int)
    ensures ParseInt(s) == Some(n) <==> FormatInt(n) == s
  {
    if FormatInt(n) == s {
      if n < 0 {
        DigitsValueOfNatDigits(-n);
        assert s[1..] == NatDigits(-n);
      } else {
        DigitsValueOfNatDigits(n);
      }
    }
    if ParseInt(s) == Some(n) {
      if |s| >= 2 && s[0] == '-' && Canonical(s[1..]) && s[1] != '0' {
        NatDigitsOfDigitsValue(s[1..]);
        assert s == "-" + s[1..];
      } else {
        NatDigitsOfDigitsValue(s);
      }
    }
  }

  lemma FormatIntRoundTrip(n: int)
    ensures ParseInt(FormatInt(n)) == Some(n)
  {
    ParseFormatInverse(FormatInt(n), n);
  }

  lemma FormatIntInjective(m: int, n: int)
    requires FormatInt(m) == FormatInt(n)
    ensures m == n
  {
    FormatIntRoundTrip(m);
    FormatIntRoundTrip(n);
  }
}
