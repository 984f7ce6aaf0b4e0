/** PHP's conversions between `int` and `string`: interpolating an integer
    into a string, reading a whole string as an integer, and the `(int)`
    cast of a string. */
module Decimal {
  import opened PhpValues

  predicate IsDigit(c: char) {
    '0' <= c <= '9'
  }

  predicate AllDigits(s: string) {
    forall k :: 0 <= k < |s| ==> IsDigit(s[k])
  }

  /** The characters an integer's decimal form is made of. */
  predicate NumeralChars(s: string) {
    forall k :: 0 <= k < |s| ==> s[k] == '-' || IsDigit(s[k])
  }

  function DigitChar(d: int): (c: char)
    requires 0 <= d < 10
    ensures IsDigit(c) && c as int - '0' as int == d
  {
    ('0' as int + d) as char
  }

  /** The decimal digits of `n`, most significant first, with no leading
      zero. */
  function NatToString(n: nat): (s: string)
    ensures |s| > 0 && AllDigits(s)
    decreases n
  {
    if n < 10 then [DigitChar(n)] else NatToString(n / 10) + [DigitChar(n % 10)]
  }

  /** `"$i"`: a minus sign for a negative integer, then its digits. */
  function IntToString(i: int): (s: string)
    ensures |s| > 0 && NumeralChars(s)
    ensures ':' !in s
  {
    if i < 0 then "-" + NatToString(-i) else NatToString(i)
  }

  /** The value of a run of decimal digits. */
  function DigitsValue(s: string): nat
    requires AllDigits(s)
    decreases |s|
  {
    if s == [] then 0 else DigitsValue(s[..|s| - 1]) * 10 + (s[|s| - 1] as int - '0' as int)
  }

  /** A whole string read as an integer: an optional minus sign followed by
      at least one digit, and nothing else. */
  function ParseInt(s: string): (r: Option<int>)
    ensures r.Some? ==> |s| > 0 && NumeralChars(s)
  {
    if |s| > 1 && s[0] == '-' && AllDigits(s[1..]) then Some(-(DigitsValue(s[1..]) as int))
    else if |s| > 0 && AllDigits(s) then Some(DigitsValue(s))
    else None
  }

  lemma {:induction false} NatToStringRoundTrip(n: nat)
    ensures DigitsValue(NatToString(n)) == n
    decreases n
  {
    if n >= 10 {
      NatToStringRoundTrip(n / 10);
      var s := NatToString(n);
      assert s[..|s| - 1] == NatToString(n / 10);
    }
  }

  /** Reading back an interpolated integer gives the integer. */
  lemma ParseIntRoundTrip(i: int)
    ensures ParseInt(IntToString(i)) == Some(i)
  {
    var s := IntToString(i);
    if i < 0 {
      NatToStringRoundTrip(-i);
      assert s[1..] == NatToString(-i);
    } else {
      NatToStringRoundTrip(i);
      assert IsDigit(s[0]);
    }
  }

  lemma IntToStringInjective(a: int, b: int)
    requires IntToString(a) == IntToString(b)
    ensures a == b
  {
    ParseIntRoundTrip(a);
    ParseIntRoundTrip(b);
  }

  /** How many digits `s` starts with. */
  function LeadingDigits(s: string): (n: nat)
    ensures n <= |s| && AllDigits(s[..n])
    ensures n < |s| ==> !IsDigit(s[n])
    decreases |s|
  {
    if s == [] || !IsDigit(s[0]) then 0
    else
      var n := 1 + LeadingDigits(s[1..]);
      assert s[..n] == [s[0]] + s[1..][..n - 1];
      n
  }

  /** `(int) $s` on strings that start with their numeral: an optional
      sign and the digits right after it; a string that does not start that
      way is 0. PHP's leading whitespace, fraction, exponent and 64-bit
      saturation rules are not part of this model. */
  function IntCast(s: string): (r: int)
    ensures (|s| == 0 || !(IsDigit(s[0]) || s[0] == '-' || s[0] == '+')) ==> r == 0
    ensures (|s| > 0 && s[0] == '-') ==> r <= 0
    ensures !(|s| > 0 && s[0] == '-') ==> r >= 0
  {
    if |s| > 0 && (s[0] == '-' || s[0] == '+') then
      var rest := s[1..];
      var v: int := DigitsValue(rest[..LeadingDigits(rest)]);
      if s[0] == '-' then -v else v
    else DigitsValue(s[..LeadingDigits(s)])
  }

  lemma AllDigitsLeading(s: string)
    requires AllDigits(s)
    ensures LeadingDigits(s) == |s|
  {
  }

  /** On a whole numeral the cast reads what `ParseInt` reads. */
  lemma IntCastAgreesWithParse(s: string)
    requires ParseInt(s).Some?
    ensures IntCast(s) == ParseInt(s).value
  {
    if s[0] == '-' {
      AllDigitsLeading(s[1..]);
      assert s[1..][..|s[1..]|] == s[1..];
    } else {
      AllDigitsLeading(s);
      assert s[..|s|] == s;
    }
  }

  /** Casting an interpolated integer back gives the integer. */
  lemma IntCastRoundTrip(i: int)
    ensures IntCast(IntToString(i)) == i
  {
    ParseIntRoundTrip(i);
    IntCastAgreesWithParse(IntToString(i));
  }
}
