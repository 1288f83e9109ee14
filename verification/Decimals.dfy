/** Normal decimals are numbers: one for each value, and reading digits keeps the value. */
module Decimals {
  import opened Syntax

  lemma {:induction false} LeadingZeroIsNothing(s: string)
    requires AllDigits(s) && s != "" && s[0] == '0'
    ensures Natural(s) == Natural(s[1..])
  {
    if |s| > 1 {
      LeadingZeroIsNothing(s[..|s| - 1]);
      assert s[..|s| - 1][1..] == s[1..][..|s| - 2];
    }
  }

  lemma {:induction false} StripLeftKeepsValue(s: string)
    requires AllDigits(s)
    ensures Natural(OrZero(StripLeft(s))) == Natural(s)
  {
    if s != "" && s[0] == '0' {
      LeadingZeroIsNothing(s);
      StripLeftKeepsValue(s[1..]);
      assert StripLeft(s) == StripLeft(s[1..]);
    } else {
      assert StripLeft(s) == s;
      assert Natural("0") == 0;
    }
  }

  lemma {:induction false} TrailingZeroIsNothing(s: string)
    requires AllDigits(s) && s != "" && s[|s| - 1] == '0'
    ensures Fraction(s) == Fraction(s[..|s| - 1])
  {
    if |s| > 1 {
      TrailingZeroIsNothing(s[1..]);
      assert s[1..][..|s| - 2] == s[..|s| - 1][1..];
    }
  }

  lemma {:induction false} StripRightKeepsValue(s: string)
    requires AllDigits(s)
    ensures Fraction(OrZero(StripRight(s))) == Fraction(s)
    decreases |s|
  {
    if s != "" && s[|s| - 1] == '0' {
      TrailingZeroIsNothing(s);
      StripRightKeepsValue(s[..|s| - 1]);
    } else {
      assert Fraction("0") == 0.0;
    }
  }

  /** float("20"), float("20.0") and float("020.00") are the same number, and a literal is infinite
      exactly from the overflow on.
    */
  lemma NormaliseKeepsValue(whole: string, frac: string)
    requires AllDigits(whole) && AllDigits(frac)
    ensures Normalise(whole, frac).Infinite? <==> Natural(whole) as real + Fraction(frac) >= OVERFLOW as real
    ensures var d := Normalise(whole, frac);
      d.Decimal? ==> DecimalValue(d) == Natural(whole) as real + Fraction(frac)
  {
    FractionBounds(frac);
    StripLeftKeepsValue(whole);
    StripRightKeepsValue(frac);
  }

  lemma {:induction false} NaturalPositive(s: string)
    requires AllDigits(s) && s != "" && s[0] != '0'
    ensures Natural(s) >= 1
  {
    if |s| > 1 { NaturalPositive(s[..|s| - 1]); }
  }

  predicate Shortest(s: string) {
    AllDigits(s) && (s == "" || s[0] != '0')
  }

  lemma {:induction false} NaturalInjective(s: string, t: string)
    requires Shortest(s) && Shortest(t) && Natural(s) == Natural(t)
    ensures s == t
  {
    if s == "" {
      if t != "" { NaturalPositive(t); }
    } else {
      NaturalPositive(s);
      var p, q := s[..|s| - 1], t[..|t| - 1];
      NaturalInjective(p, q);
      assert s == p + [s[|s| - 1]] && t == q + [t[|t| - 1]];
    }
  }

  lemma {:induction false} FractionBounds(s: string)
    requires AllDigits(s)
    ensures 0.0 <= Fraction(s) < 1.0
    ensures s != "" && s[|s| - 1] != '0' ==> Fraction(s) > 0.0
  {
    if s != "" { FractionBounds(s[1..]); }
  }

  predicate Tight(s: string) {
    AllDigits(s) && (s == "" || s[|s| - 1] != '0')
  }

  lemma SameDigit(a: nat, b: nat, x: real, y: real)
    requires a as real + x == b as real + y && 0.0 <= x < 1.0 && 0.0 <= y < 1.0
    ensures a == b && x == y
  {
    assert (a - b) as real == y - x;
  }

  lemma {:induction false} FractionInjective(s: string, t: string)
    requires Tight(s) && Tight(t) && Fraction(s) == Fraction(t)
    ensures s == t
  {
    FractionBounds(s);
    FractionBounds(t);
    if s != "" {
      FractionBounds(s[1..]);
      FractionBounds(t[1..]);
      SameDigit(DigitValue(s[0]), DigitValue(t[0]), Fraction(s[1..]), Fraction(t[1..]));
      FractionInjective(s[1..], t[1..]);
      assert s == [s[0]] + s[1..] && t == [t[0]] + t[1..];
    }
  }

  /** Two normal decimals of the same value are the same decimal, so they print alike. */
  lemma NormalIsUnique(a: Decimal, b: Decimal)
    requires a.Decimal? && b.Decimal? && a.Normal() && b.Normal()
    ensures DecimalValue(a) == DecimalValue(b) <==> a == b
  {
    if DecimalValue(a) == DecimalValue(b) {
      FractionBounds(a.frac);
      FractionBounds(b.frac);
      SameDigit(Natural(a.whole), Natural(b.whole), Fraction(a.frac), Fraction(b.frac));
      NaturalInjective(Significant(a.whole), Significant(b.whole));
      FractionInjective(Significant(a.frac), Significant(b.frac));
    }
  }

  /** The digits of a part, none for a lone zero. */
  function Significant(s: string): (r: string)
    requires AllDigits(s)
    ensures AllDigits(r) && Natural(r) == Natural(s) && Fraction(r) == Fraction(s)
  {
    assert Natural("0") == 0 && Fraction("0") == 0.0;
    if s == "0" then "" else s
  }
}
