/**
 * Decimal rendering of integers, as Java's `Long.toString`: an optional
 * minus sign, then the digits with no leading zero.  `ParseDecimal` reads
 * such a string back and is the partner the rendering is proved against.
 */
module Decimal {
  import opened Options

  function DigitChar(d: nat): (c: char)
    requires d < 10
    ensures '0' <= c <= '9'
  {
    (('0' as int) + d) as char
  }

  function DigitValue(c: char): (d: nat)
    requires '0' <= c <= '9'
    ensures d < 10
  {
    (c as int) - ('0' as int)
  }

  predicate AllDigits(s: string)
  {
    forall i :: 0 <= i < |s| ==> '0' <= s[i] <= '9'
  }

  /** A non-empty digit string with no leading zero, except "0" itself. */
  predicate Canonical(s: string)
  {
    |s| > 0 && AllDigits(s) && (s[0] == '0' ==> s == "0")
  }

  /** The decimal digits of a natural number. */
  function Digits(n: nat): (s: string)
    ensures Canonical(s)
    ensures n != 0 ==> s[0] != '0'
    decreases n
  {
    if n < 10 then [DigitChar(n)] else Digits(n / 10) + [DigitChar(n % 10)]
  }

  /** The number a digit string denotes, read left to right. */
  function DigitsValue(s: string): nat
    requires AllDigits(s)
  {
    if |s| == 0 then 0 else 10 * DigitsValue(s[..|s| - 1]) + DigitValue(s[|s| - 1])
  }

  /** `String.valueOf(n)` for a Java integer `n`. */
  function DecimalString(n: int): (s: string)
    ensures n >= 0 ==> Canonical(s)
    ensures n < 0 ==> |s| > 1 && s[0] == '-' && Canonical(s[1..]) && s[1] != '0'
  {
    if n < 0 then "-" + Digits(-n) else Digits(n)
  }

  /** Reads a canonical decimal string; anything else is rejected. */
  function ParseDecimal(s: string): Option<int>
  {
    if |s| > 0 && s[0] == '-' then
      if Canonical(s[1..]) && s[1..] != "0" then
        var v: int := DigitsValue(s[1..]);
        Some(-v)
      else None
    else if Canonical(s) then Some(DigitsValue(s))
    else None
  }

  lemma {:induction false} DigitsRoundTrip(n: nat)
    ensures DigitsValue(Digits(n)) == n
    decreases n
  {
    if n >= 10 {
      DigitsRoundTrip(n / 10);
      var s := Digits(n);
      assert s[..|s| - 1] == Digits(n / 10);
    }
  }

  /** A digit string with a non-zero first digit denotes a positive number. */
  lemma {:induction false} LeadingDigitPositive(s: string)
    requires |s| > 0 && AllDigits(s) && s[0] != '0'
    ensures DigitsValue(s) > 0
    decreases |s|
  {
    if |s| > 1 {
      LeadingDigitPositive(s[..|s| - 1]);
    }
  }

  /** Rendering back a canonical digit string's value gives the string itself. */
  lemma {:induction false} CanonicalRoundTrip(s: string)
    requires Canonical(s)
    ensures Digits(DigitsValue(s)) == s
    decreases |s|
  {
    if |s| > 1 {
      var init := s[..|s| - 1];
      LeadingDigitPositive(init);
      CanonicalRoundTrip(init);
      var v := DigitsValue(s);
      assert v / 10 == DigitsValue(init) && v % 10 == DigitValue(s[|s| - 1]);
      assert s == init + [s[|s| - 1]];
    }
  }

  /** Parsing the rendering of `n` yields `n`: distinct values render differently. */
  lemma DecimalRoundTrip(n: int)
    ensures ParseDecimal(DecimalString(n)) == Some(n)
  {
    var s := DecimalString(n);
    if n < 0 {
      var t := Digits(-n);
      DigitsRoundTrip(-n);
      assert s == "-" + t && s[1..] == t && t[0] != '0';
    } else {
      DigitsRoundTrip(n);
      assert s == Digits(n) && '0' <= s[0] <= '9';
    }
  }

  /** Every string the parser accepts is the rendering of the value it yields. */
  lemma ParseDecimalCanonical(s: string, n: int)
    requires ParseDecimal(s) == Some(n)
    ensures DecimalString(n) == s
  {
    if |s| > 0 && s[0] == '-' {
      var t := s[1..];
      assert Canonical(t) && t != "0" && n + DigitsValue(t) == 0;
      assert t[0] != '0';
      LeadingDigitPositive(t);
      CanonicalRoundTrip(t);
      assert n < 0 && Digits(-n) == t;
      assert s == "-" + t;
    } else {
      assert Canonical(s) && n == DigitsValue(s);
      CanonicalRoundTrip(s);
    }
  }
}
