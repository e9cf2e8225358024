/** PHP's `intval` on a string, as the bulk action applies it to each
    submitted user id: leading whitespace is skipped, an optional sign and
    the longest run of decimal digits are read, a string with no leading
    digits gives 0, and the value saturates at the bounds of a 64-bit PHP
    integer. What follows the digits is ignored; PHP instead reads a
    fraction or an exponent there as a float before truncating, which this
    model does not. */
module PhpInt {

  const IntMax: int := 0x7FFF_FFFF_FFFF_FFFF
  const IntMin: int := -0x8000_0000_0000_0000

  predicate IsDigit(c: char)
  {
    '0' <= c <= '9'
  }

  /** The whitespace PHP skips before a numeric string: space, \t, \n, \r, \v, \f. */
  predicate IsSpace(c: char)
  {
    c == ' ' || c == '\t' || c == '\n' || c == '\r' || c as int == 11 || c as int == 12
  }

  predicate AllDigits(s: string)
  {
    forall i :: 0 <= i < |s| ==> IsDigit(s[i])
  }

  function TrimLeadingSpace(s: string): (r: string)
    ensures |r| <= |s| && r == s[|s| - |r|..]
    ensures r == [] || !IsSpace(r[0])
  {
    if s != [] && IsSpace(s[0]) then TrimLeadingSpace(s[1..]) else s
  }

  /** The longest prefix of `s` made of decimal digits. */
  function DigitRun(s: string): (r: string)
    ensures r <= s && AllDigits(r)
    ensures |r| < |s| ==> !IsDigit(s[|r|])
  {
    if s != [] && IsDigit(s[0]) then [s[0]] + DigitRun(s[1..]) else []
  }

  function DigitValue(c: char): (n: nat)
    requires IsDigit(c)
    ensures n < 10
  {
    c as int - '0' as int
  }

  /** The number a run of decimal digits denotes (0 for the empty run). */
  function DigitsValue(d: string): nat
    requires AllDigits(d)
  {
    if d == [] then 0 else DigitsValue(d[..|d| - 1]) * 10 + DigitValue(d[|d| - 1])
  }

  /** Saturation at the 64-bit bounds. */
  function Clamp(n: int): (r: int)
    ensures IntMin <= r <= IntMax
    ensures IntMin <= n <= IntMax ==> r == n
    ensures n > IntMax ==> r == IntMax
    ensures n < IntMin ==> r == IntMin
  {
    if n > IntMax then IntMax else if n < IntMin then IntMin else n
  }

  function IntVal(s: string): (r: int)
    ensures IntMin <= r <= IntMax
  {
    var t := TrimLeadingSpace(s);
    var magnitude := DigitsValue(SignedDigits(t));
    if t != [] && t[0] == '-' then Clamp(0 - magnitude) else Clamp(magnitude)
  }

  /** The digits after the leading whitespace and the optional sign. */
  function SignedDigits(t: string): (r: string)
    ensures AllDigits(r)
  {
    if t != [] && (t[0] == '-' || t[0] == '+') then DigitRun(t[1..]) else DigitRun(t)
  }

  /** A string with no decimal digit right after its leading whitespace and
      optional sign ("", "abc", " -x", "+") gives 0. Strings such as ".5e1",
      which PHP reads as a float, are the exponent forms not modelled here. */
  lemma IntValWithoutLeadingDigits(s: string)
    requires SignedDigits(TrimLeadingSpace(s)) == []
    ensures IntVal(s) == 0
  {
  }

  function DigitChar(n: nat): (c: char)
    requires n < 10
    ensures IsDigit(c) && DigitValue(c) == n
  {
    ('0' as int + n) as char
  }

  /** The decimal rendering of a non-negative number, without leading zeros. */
  function NatDecimal(n: nat): (r: string)
    ensures |r| > 0 && AllDigits(r)
    decreases n
  {
    if n < 10 then [DigitChar(n)] else NatDecimal(n / 10) + [DigitChar(n % 10)]
  }

  /** The decimal rendering of an integer, as PHP prints a user id into the
      users list form. */
  function Decimal(n: int): string
  {
    if n < 0 then "-" + NatDecimal(-n) else NatDecimal(n)
  }

  lemma {:induction false} DigitRunOfDigits(s: string)
    requires AllDigits(s)
    ensures DigitRun(s) == s
  {
    if s != [] {
      DigitRunOfDigits(s[1..]);
      assert [s[0]] + s[1..] == s;
    }
  }

  lemma {:induction false} DigitsValueOfNatDecimal(n: nat)
    ensures DigitsValue(NatDecimal(n)) == n
    decreases n
  {
    if n >= 10 {
      var d := NatDecimal(n);
      assert d[..|d| - 1] == NatDecimal(n / 10);
      DigitsValueOfNatDecimal(n / 10);
    }
  }

  /** intval reads back every 64-bit integer from its decimal rendering:
      the ids the users list submits arrive unchanged. */
  lemma {:induction false} IntValOfDecimal(n: int)
    requires IntMin <= n <= IntMax
    ensures IntVal(Decimal(n)) == n
  {
    if n < 0 {
      IntValOfNegativeDecimal(-n);
    } else {
      IntValOfNatDecimal(n);
    }
  }

  lemma {:induction false} IntValOfNatDecimal(n: nat)
    requires n <= IntMax
    ensures IntVal(NatDecimal(n)) == n
  {
    DigitsValueOfNatDecimal(n);
    IntValOfDigits(NatDecimal(n));
  }

  lemma IntValOfDigits(d: string)
    requires d != [] && AllDigits(d) && DigitsValue(d) <= IntMax
    ensures IntVal(d) == DigitsValue(d)
  {
    assert IsDigit(d[0]);
    assert !IsSpace(d[0]) && d[0] != '-' && d[0] != '+';
    assert TrimLeadingSpace(d) == d;
    DigitRunOfDigits(d);
    assert IntVal(d) == Clamp(DigitsValue(d));
  }

  lemma {:induction false} IntValOfNegativeDecimal(n: nat)
    requires 0 < n <= -IntMin
    ensures IntVal("-" + NatDecimal(n)) == 0 - n
  {
    var d := NatDecimal(n);
    var s := "-" + d;
    assert s[0] == '-';
    assert TrimLeadingSpace(s) == s;
    assert s[1..] == d;
    DigitRunOfDigits(d);
    DigitsValueOfNatDecimal(n);
  }
}
