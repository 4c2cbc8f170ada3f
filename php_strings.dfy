/** Decimal text of integers: how PHP writes an int into a string, and which
    strings PHP treats as integers when they are used as array keys (those
    that are canonical decimal text of a 64-bit int). */
module PhpStrings {

  predicate IsDigit(c: char) {
    '0' <= c <= '9'
  }

  predicate AllDigits(s: string) {
    forall i :: 0 <= i < |s| ==> IsDigit(s[i])
  }

  function DigitValue(c: char): (d: nat)
    requires IsDigit(c)
    ensures d < 10
  {
    c as int - '0' as int
  }

  function DigitChar(d: nat): (c: char)
    requires d < 10
    ensures IsDigit(c) && DigitValue(c) == d
  {
    ('0' as int + d) as char
  }

  /** The decimal digits of n, most significant first, without leading zeros. */
  function NatToDecimal(n: nat): (s: string)
    ensures |s| > 0 && AllDigits(s)
    ensures |s| > 1 ==> s[0] != '0'
    ensures n < 10 <==> |s| == 1
  {
    if n < 10 then [DigitChar(n)] else NatToDecimal(n / 10) + [DigitChar(n % 10)]
  }

  /** "$n" for a PHP int n. */
  function IntToDecimal(n: int): string {
    if n < 0 then "-" + NatToDecimal(-n) else NatToDecimal(n)
  }

  /** The value of a string of decimal digits (0 for the empty string). */
  function DigitsValue(s: string): nat
    requires AllDigits(s)
  {
    if s == [] then 0 else DigitsValue(s[..|s| - 1]) * 10 + DigitValue(s[|s| - 1])
  }

  /** A non-empty digit string without a leading zero ("0" itself is allowed). */
  predicate IsCanonicalNat(s: string) {
    |s| > 0 && AllDigits(s) && (|s| == 1 || s[0] != '0')
  }

  /** PHP ints are 64-bit: zend_long's range. */
  predicate InLongRange(n: int) {
    -0x8000_0000_0000_0000 <= n <= 0x7FFF_FFFF_FFFF_FFFF
  }

  /** The shape of an integer string: "7" and "-7", but not "07", "-0", "+7",
      " 7" or "". */
  predicate IsIntegerSyntax(s: string) {
    IsCanonicalNat(s) || (|s| > 1 && s[0] == '-' && IsCanonicalNat(s[1..]) && s[1] != '0')
  }

  function IntegerValue(s: string): int
    requires IsIntegerSyntax(s)
  {
    if s[0] == '-' then -(DigitsValue(s[1..]) as int) else DigitsValue(s)
  }

  /** The strings PHP turns into integer array keys: integer syntax whose value
      fits a zend_long ("9223372036854775808" stays a string key). */
  predicate IsIntegerString(s: string) {
    IsIntegerSyntax(s) && InLongRange(IntegerValue(s))
  }

  lemma DigitsValueSnoc(s: string, c: char)
    requires AllDigits(s) && IsDigit(c)
    ensures AllDigits(s + [c]) && DigitsValue(s + [c]) == DigitsValue(s) * 10 + DigitValue(c)
  {
    assert (s + [c])[..|s|] == s;
  }

  /** Reading back the digits NatToDecimal writes gives the number again. */
  lemma {:induction false} NatToDecimalRoundTrip(n: nat)
    ensures DigitsValue(NatToDecimal(n)) == n
  {
    if n >= 10 {
      NatToDecimalRoundTrip(n / 10);
      DigitsValueSnoc(NatToDecimal(n / 10), DigitChar(n % 10));
    }
  }

  /** A digit string that starts with a non-zero digit has a positive value. */
  lemma {:induction false} LeadingDigitPositive(s: string)
    requires |s| > 0 && AllDigits(s) && s[0] != '0'
    ensures DigitsValue(s) >= 1
  {
    if |s| > 1 {
      LeadingDigitPositive(s[..|s| - 1]);
    }
  }

  /** Writing out the value of a canonical digit string gives the string again. */
  lemma {:induction false} CanonicalNatRoundTrip(s: string)
    requires IsCanonicalNat(s)
    ensures NatToDecimal(DigitsValue(s)) == s
  {
    if |s| > 1 {
      var init, last := s[..|s| - 1], s[|s| - 1];
      assert s == init + [last];
      LeadingDigitPositive(init);
      CanonicalNatRoundTrip(init);
      var v := DigitsValue(s);
      assert v == DigitsValue(init) * 10 + DigitValue(last);
      assert v / 10 == DigitsValue(init) && v % 10 == DigitValue(last);
      assert DigitChar(DigitValue(last)) == last;
    }
  }

  /** The decimal text of every int is integer syntax that stands for that int;
      it is an integer key exactly when the int fits a zend_long. */
  lemma DecimalIsIntegerString(n: int)
    ensures IsIntegerSyntax(IntToDecimal(n)) && IntegerValue(IntToDecimal(n)) == n
    ensures IsIntegerString(IntToDecimal(n)) <==> InLongRange(n)
  {
    if n < 0 {
      var d := NatToDecimal(-n);
      assert IntToDecimal(n)[1..] == d;
      NatToDecimalRoundTrip(-n);
    } else {
      NatToDecimalRoundTrip(n);
    }
  }

  /** Every integer string is the decimal text of the int it stands for. */
  lemma IntegerStringIsDecimal(s: string)
    requires IsIntegerSyntax(s)
    ensures IntToDecimal(IntegerValue(s)) == s
  {
    if s[0] == '-' {
      var d := s[1..];
      CanonicalNatRoundTrip(d);
      if |d| == 1 {
        assert d[0] != '0';
      } else {
        LeadingDigitPositive(d);
      }
      assert DigitsValue(d) >= 1;
      assert s == "-" + d;
    } else {
      CanonicalNatRoundTrip(s);
    }
  }
}
