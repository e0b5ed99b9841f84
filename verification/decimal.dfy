/** Decimal rendering of integers, as JavaScript's template-literal
    interpolation `${n}` prints an integral number below 10^21 in magnitude
    (larger ones switch to exponent form), and a parser that reads
    such a rendering back. The parser is the partner of the renderer: every
    rendering parses back to the integer it came from.
 */
module Decimal {
  import opened Wrappers

  predicate IsDigit(c: char)
  {
    '0' <= c <= '9'
  }

  predicate AllDigits(s: string)
  {
    forall i :: 0 <= i < |s| ==> IsDigit(s[i])
  }

  function DigitChar(d: nat): (c: char)
    requires d < 10
    ensures IsDigit(c)
  {
    ('0' as int + d) as char
  }

  function DigitValue(c: char): (d: nat)
    requires IsDigit(c)
    ensures d < 10
  {
    c as int - '0' as int
  }

  /** Most significant digit first, no leading zeros, "0" for zero. */
  function NatToString(n: nat): (s: string)
    ensures |s| >= 1
    ensures AllDigits(s)
    ensures n >= 10 ==> |s| >= 2
    ensures s[0] == '0' ==> n == 0 && |s| == 1
  {
    if n < 10 then [DigitChar(n)] else NatToString(n / 10) + [DigitChar(n % 10)]
  }

  /** A leading '-' for negative numbers, then the digits of the magnitude. */
  function IntToString(i: int): (s: string)
    ensures |s| >= 1
    ensures i >= 0 <==> AllDigits(s)
    ensures i < 0 <==> s[0] == '-'
    ensures ' ' !in s
    ensures Canonical(s)
  {
    if i < 0 then
      var s := "-" + NatToString(-i);
      assert !IsDigit(s[0]);
      s
    else NatToString(i)
  }

  /** The text `${n}` prints for |n| < 10^21: an optional '-', then digits
      with no leading zero, except for "0" itself; no "-0". */
  predicate Canonical(s: string)
  {
    || (|s| >= 1 && AllDigits(s) && (s[0] == '0' ==> |s| == 1))
    || (|s| >= 2 && s[0] == '-' && AllDigits(s[1..]) && s[1] != '0')
  }

  /** The value of a non-empty run of digits, read most significant first. */
  function ParseDigits(s: string): nat
    requires |s| >= 1 && AllDigits(s)
  {
    if |s| == 1 then DigitValue(s[0])
    else ParseDigits(s[..|s| - 1]) * 10 + DigitValue(s[|s| - 1])
  }

  /** Reads an optionally '-'-signed run of digits; anything else is None. */
  function ParseInt(s: string): Option<int>
  {
    if |s| >= 2 && s[0] == '-' && AllDigits(s[1..]) then
      var magnitude: int := ParseDigits(s[1..]);
      Some(-magnitude)
    else if |s| >= 1 && AllDigits(s) then Some(ParseDigits(s))
    else None
  }

  lemma {:induction false} ParseNatToString(n: nat)
    ensures ParseDigits(NatToString(n)) == n
    decreases n
  {
    if n >= 10 {
      var s := NatToString(n);
      var prefix := NatToString(n / 10);
      assert s == prefix + [DigitChar(n % 10)];
      assert s[..|s| - 1] == prefix;
      ParseNatToString(n / 10);
    }
  }

  /** Round trip: the rendering of any integer parses back to it. */
  lemma IntToStringRoundTrip(i: int)
    ensures ParseInt(IntToString(i)) == Some(i)
  {
    var s := IntToString(i);
    if i < 0 {
      assert s[1..] == NatToString(-i);
      ParseNatToString(-i);
    } else {
      ParseNatToString(i);
    }
  }

  /** Distinct integers have distinct renderings. */
  lemma IntToStringInjective(i: int, j: int)
    requires IntToString(i) == IntToString(j)
    ensures i == j
  {
    IntToStringRoundTrip(i);
    IntToStringRoundTrip(j);
  }

  lemma {:induction false} LeadingDigitPositive(s: string)
    requires |s| >= 1 && AllDigits(s) && s[0] != '0'
    ensures ParseDigits(s) >= 1
    decreases |s|
  {
    if |s| > 1 {
      var prefix := s[..|s| - 1];
      assert prefix[0] == s[0];
      LeadingDigitPositive(prefix);
    }
  }

  lemma {:induction false} NatToStringParse(s: string)
    requires |s| >= 1 && AllDigits(s) && (s[0] == '0' ==> |s| == 1)
    ensures NatToString(ParseDigits(s)) == s
    decreases |s|
  {
    if |s| == 1 {
      assert DigitChar(DigitValue(s[0])) == s[0];
    } else {
      var prefix := s[..|s| - 1];
      var last := s[|s| - 1];
      assert prefix[0] == s[0];
      NatToStringParse(prefix);
      LeadingDigitPositive(prefix);
      var v := ParseDigits(s);
      assert v / 10 == ParseDigits(prefix) && v % 10 == DigitValue(last);
      assert DigitChar(DigitValue(last)) == last;
      assert s == prefix + [last];
    }
  }

  /** The other direction of the round trip: a canonical text is what the
      integer it denotes renders as, so the rendering is exactly `${n}`. */
  lemma ParseIntCanonical(s: string)
    requires Canonical(s)
    ensures ParseInt(s).Some? && IntToString(ParseInt(s).value) == s
  {
    if s[0] == '-' {
      var digits := s[1..];
      assert digits[0] == s[1];
      NatToStringParse(digits);
      LeadingDigitPositive(digits);
      assert s == "-" + digits;
    } else {
      NatToStringParse(s);
    }
  }
}
