/**
 * How JavaScript renders the numbers the agent tools print: `${n}` for an
 * integer, `+${n}` for a positive score, and the shortest text of a number
 * kept to one decimal.  Each rendering has a parser beside it, and the
 * round-trip lemmas show that the text determines the number.
 */
module NumberText {

  predicate IsDigit(c: char) { '0' <= c <= '9' }

  predicate AllDigits(s: string) { forall i :: 0 <= i < |s| ==> IsDigit(s[i]) }

  function DigitChar(d: nat): (c: char)
    requires d < 10
    ensures IsDigit(c) && c as int - '0' as int == d
  {
    ('0' as int + d) as char
  }

  function DigitValue(c: char): nat
    requires IsDigit(c)
  {
    c as int - '0' as int
  }

  /** Decimal text of a natural number: digits only, no leading zero. */
  function NatText(n: nat): (s: string)
    ensures |s| >= 1 && AllDigits(s)
    ensures s[0] == '0' ==> n == 0 && |s| == 1
  {
    if n < 10 then [DigitChar(n)] else NatText(n / 10) + [DigitChar(n % 10)]
  }

  /** The value of a string of decimal digits (the inverse of NatText). */
  function DigitsValue(s: string): nat
    requires AllDigits(s)
  {
    if s == [] then 0 else 10 * DigitsValue(s[..|s| - 1]) + DigitValue(s[|s| - 1])
  }

  lemma {:induction false} NatTextRoundTrip(n: nat)
    ensures DigitsValue(NatText(n)) == n
  {
    if n >= 10 {
      NatTextRoundTrip(n / 10);
      var s := NatText(n);
      assert s[..|s| - 1] == NatText(n / 10);
    }
  }

  /** `${n}` for an integer n. */
  function IntText(n: int): (s: string)
    ensures |s| >= 1
    ensures s[0] == '-' <==> n < 0
  {
    if n < 0 then "-" + NatText(-n) else NatText(n)
  }

  /** `n > 0 ? `+${n}` : `${n}``: the score text of the agent tools. */
  function SignedText(n: int): string
  {
    if n > 0 then "+" + IntText(n) else IntText(n)
  }

  /** An optionally signed decimal numeral. */
  predicate Numeral(s: string)
  {
    |s| >= 1 &&
    if s[0] == '+' || s[0] == '-' then |s| >= 2 && AllDigits(s[1..]) else AllDigits(s)
  }

  function NumeralValue(s: string): int
    requires Numeral(s)
  {
    var magnitude: int := if s[0] == '+' || s[0] == '-' then DigitsValue(s[1..]) else DigitsValue(s);
    if s[0] == '-' then -magnitude else magnitude
  }

  lemma {:induction false} IntTextRoundTrip(n: int)
    ensures Numeral(IntText(n)) && NumeralValue(IntText(n)) == n
    ensures IntText(n)[0] != '+'
  {
    var m: nat := if n < 0 then -n else n;
    NatTextRoundTrip(m);
    if n < 0 {
      assert IntText(n)[1..] == NatText(m);
    }
  }

  /** The score text reads back as the score, and starts with '+' exactly for positive scores. */
  lemma {:induction false} SignedTextRoundTrip(n: int)
    ensures Numeral(SignedText(n)) && NumeralValue(SignedText(n)) == n
    ensures SignedText(n)[0] == '+' <==> n > 0
    ensures SignedText(n)[0] == '-' <==> n < 0
  {
    IntTextRoundTrip(n);
    if n > 0 {
      assert SignedText(n)[1..] == IntText(n);
    }
  }

  /**
   * The text JavaScript prints for the number t / 10: an integer prints
   * without a decimal point ("2", "-1"), anything else with its single
   * decimal ("1.5", "-0.5").
   */
  function TenthsText(t: int): string
  {
    var m: nat := if t < 0 then -t else t;
    if m % 10 == 0 then IntText(t / 10)
    else (if t < 0 then "-" else "") + NatText(m / 10) + "." + [DigitChar(m % 10)]
  }

  /** A numeral, or a numeral followed by a point and one digit. */
  predicate DecimalNumeral(s: string)
  {
    Numeral(s) || (|s| >= 3 && s[|s| - 2] == '.' && IsDigit(s[|s| - 1]) && Numeral(s[..|s| - 2]))
  }

  /** The value of a decimal numeral, in tenths. */
  function DecimalTenths(s: string): int
    requires DecimalNumeral(s)
  {
    if Numeral(s) then 10 * NumeralValue(s)
    else
      var whole := s[..|s| - 2];
      var digits := if whole[0] == '+' || whole[0] == '-' then whole[1..] else whole;
      var magnitude := 10 * DigitsValue(digits) + DigitValue(s[|s| - 1]);
      if whole[0] == '-' then -magnitude else magnitude
  }

  /** A text with a point before its last character is not a plain numeral. */
  lemma PointNotNumeral(s: string)
    requires |s| >= 3 && s[|s| - 2] == '.'
    ensures !Numeral(s)
  {
    assert !IsDigit(s[|s| - 2]);
    if s[0] == '+' || s[0] == '-' {
      assert s[1..][|s| - 3] == s[|s| - 2];
    }
  }

  /** A numeral followed by a point and a digit: its parts as `DecimalTenths` reads them. */
  lemma FractionParts(whole: string, d: nat)
    requires Numeral(whole) && d < 10
    ensures var s := whole + "." + [DigitChar(d)];
      DecimalNumeral(s) && !Numeral(s) && s[..|s| - 2] == whole && DigitValue(s[|s| - 1]) == d
  {
    var s := whole + "." + [DigitChar(d)];
    PointNotNumeral(s);
    assert s[..|s| - 2] == whole;
  }

  /** Digits, a point and one digit read back as that many tenths. */
  lemma PositiveFractionRoundTrip(q: nat, d: nat)
    requires d < 10
    ensures DecimalNumeral(NatText(q) + "." + [DigitChar(d)])
    ensures DecimalTenths(NatText(q) + "." + [DigitChar(d)]) == 10 * q + d
  {
    NatTextRoundTrip(q);
    PositiveFraction(NatText(q), d);
  }

  /** The same for any digit string in place of the printed number. */
  lemma PositiveFraction(digits: string, d: nat)
    requires |digits| >= 1 && AllDigits(digits) && d < 10
    ensures DecimalNumeral(digits + "." + [DigitChar(d)])
    ensures DecimalTenths(digits + "." + [DigitChar(d)]) == 10 * DigitsValue(digits) + d
  {
    FractionParts(digits, d);
    assert IsDigit(digits[0]);
  }

  /** A minus sign, digits, a point and one digit read back as minus that many tenths. */
  lemma NegativeFractionRoundTrip(q: nat, d: nat)
    requires d < 10
    ensures DecimalNumeral("-" + NatText(q) + "." + [DigitChar(d)])
    ensures DecimalTenths("-" + NatText(q) + "." + [DigitChar(d)]) == -(10 * q + d)
  {
    NatTextRoundTrip(q);
    NegativeFraction(NatText(q), d);
  }

  /** The same for any digit string in place of the printed number. */
  lemma NegativeFraction(digits: string, d: nat)
    requires |digits| >= 1 && AllDigits(digits) && d < 10
    ensures DecimalNumeral("-" + digits + "." + [DigitChar(d)])
    ensures DecimalTenths("-" + digits + "." + [DigitChar(d)]) == -(10 * DigitsValue(digits) + d)
  {
    var whole := "-" + digits;
    assert whole[1..] == digits;
    FractionParts(whole, d);
  }

  lemma {:induction false} TenthsTextRoundTrip(t: int)
    ensures DecimalNumeral(TenthsText(t)) && DecimalTenths(TenthsText(t)) == t
  {
    var m: nat := if t < 0 then -t else t;
    if m % 10 == 0 {
      var q := m / 10;
      assert t == 10 * (if t < 0 then -q else q);
      assert t / 10 == (if t < 0 then -q else q);
      IntTextRoundTrip(t / 10);
    } else {
      if t < 0 {
        assert TenthsText(t) == "-" + NatText(m / 10) + "." + [DigitChar(m % 10)];
        NegativeFractionRoundTrip(m / 10, m % 10);
      } else {
        assert TenthsText(t) == NatText(m / 10) + "." + [DigitChar(m % 10)];
        PositiveFractionRoundTrip(m / 10, m % 10);
      }
    }
  }
}
