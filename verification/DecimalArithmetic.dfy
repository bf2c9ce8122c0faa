/** Positive decimals under Python's default `decimal` context: 28 significant
    digits, ties to even.  A value is `coeff * 10^exp`; a rounding that carries
    into a 29th digit keeps the coefficient 10^28, which denotes the same number
    as the library's renormalised 1E+k. */
module DecimalArithmetic {

  datatype Decimal = Decimal(coeff: nat, exp: int)

  const TEN27: nat := 1_000_000_000_000_000_000_000_000_000
  const TEN28: nat := 10_000_000_000_000_000_000_000_000_000

  function Pow10(n: nat): (p: nat)
    ensures p >= 1
  {
    if n == 0 then 1 else 10 * Pow10(n - 1)
  }

  /** Number of decimal digits of a positive integer. */
  function Digits(n: nat): (d: nat)
    requires n >= 1
    ensures d >= 1
    ensures Pow10(d - 1) <= n < Pow10(d)
  {
    if n < 10 then
      assert Pow10(1) == 10 && Pow10(0) == 1;
      1
    else
      1 + Digits(n / 10)
  }

  lemma {:induction false} Pow10Sum(a: nat, b: nat)
    ensures Pow10(a + b) == Pow10(a) * Pow10(b)
  {
    if a > 0 {
      Pow10Sum(a - 1, b);
      assert Pow10(a + b) == 10 * Pow10((a - 1) + b);
    }
  }

  lemma {:induction false} Pow10Monotone(a: nat, b: nat)
    requires a <= b
    ensures Pow10(a) <= Pow10(b)
  {
    if a < b { Pow10Monotone(a, b - 1); }
  }

  lemma Pow10At16()
    ensures Pow10(15) == 1_000_000_000_000_000
    ensures Pow10(16) == 10_000_000_000_000_000
  {
    assert Pow10(4) == 10_000;
    Pow10Sum(4, 4);
    Pow10Sum(8, 4);
    assert Pow10(3) == 1000;
    Pow10Sum(12, 3);
    Pow10Sum(12, 4);
  }

  /** The fraction n/d scaled by 10^-e, as a numerator and a denominator. */
  function ScaledNumerator(n: nat, e: int): nat {
    if e < 0 then n * Pow10(-e) else n
  }

  function ScaledDenominator(d: nat, e: int): (s: nat)
    ensures d >= 1 ==> s >= 1
  {
    if e > 0 then d * Pow10(e) else d
  }

  /** q is the integer nearest to n/d, the even one of the two at a tie. */
  predicate HalfEven(n: nat, d: nat, q: nat) {
    && 2 * (q * d) <= 2 * n + d
    && 2 * n <= 2 * (q * d) + d
    && (2 * n == 2 * (q * d) + d || 2 * (q * d) == 2 * n + d ==> q % 2 == 0)
  }

  /** x is n/d correctly rounded to 28 significant digits. */
  predicate Rounded(n: nat, d: nat, x: Decimal) {
    var sn, sd := ScaledNumerator(n, x.exp), ScaledDenominator(d, x.exp);
    TEN27 * sd <= sn < TEN28 * sd && HalfEven(sn, sd, x.coeff)
  }

  function FloorDiv(n: nat, d: nat): (q: nat)
    requires d >= 1
    ensures q * d <= n < (q + 1) * d
  {
    var q := n / d;
    assert n == q * d + n % d;
    q
  }

  function NearestEven(n: nat, d: nat): (q: nat)
    requires d >= 1
    ensures HalfEven(n, d, q)
  {
    var q := FloorDiv(n, d);
    var r := n - q * d;
    assert (q + 1) * d == q * d + d;
    if 2 * r < d || (2 * r == d && q % 2 == 0) then q else q + 1
  }

  lemma DigitBounds(n: nat, d: nat, e0: int)
    requires n >= 1 && d >= 1 && e0 == Digits(n) - Digits(d) - 28
    ensures TEN27 * ScaledDenominator(d, e0) < ScaledNumerator(n, e0)
    ensures ScaledNumerator(n, e0) < 10 * TEN28 * ScaledDenominator(d, e0)
  {
    var a, b := Digits(n), Digits(d);
    var up, down := if e0 < 0 then -e0 else 0, if e0 > 0 then e0 else 0;
    DigitBoundsScaled(n, d, a, b, up, down);
    assert Pow10(0) == 1;
  }

  lemma DigitBoundsScaled(n: nat, d: nat, a: nat, b: nat, up: nat, down: nat)
    requires a >= 1 && b >= 1 && a + up == b + down + 28
    requires Pow10(a - 1) <= n < Pow10(a) && Pow10(b - 1) <= d < Pow10(b)
    ensures TEN27 * (d * Pow10(down)) < n * Pow10(up)
    ensures n * Pow10(up) < 10 * TEN28 * (d * Pow10(down))
  {
    Pow10At28();
    Pow10Sum(b, down);
    Pow10Sum(b - 1, down);
    ScaledPowers(a - 1, up, 27, b + down);
    ScaledPowers(a, up, 29, b - 1 + down);
    ScaleLess(d, Pow10(b), Pow10(down));
    ScaleLessEq(Pow10(b - 1), d, Pow10(down));
    ScaleLessEq(Pow10(a - 1), n, Pow10(up));
    ScaleLess(n, Pow10(a), Pow10(up));
  }

  lemma Cancel(x: nat, y: nat, k: nat)
    requires k >= 1 && x * k <= y * k
    ensures x <= y
  {
    if x > y { ScaleLess(y, x, k); }
  }

  lemma CancelLess(x: nat, y: nat, k: nat)
    requires x * k < y * k
    ensures x < y
  {
    if x >= y { ScaleLessEq(y, x, k); }
  }

  /** Correct rounding depends on the ratio only. */
  lemma SameRatio(n: nat, d: nat, a: nat, b: nat, q: nat)
    requires d >= 1 && b >= 1 && n * b == a * d
    requires TEN27 * d <= n < TEN28 * d && HalfEven(n, d, q)
    ensures TEN27 * b <= a < TEN28 * b && HalfEven(a, b, q)
  {
    ScaleBy(TEN27, d, b);
    ScaleLessEq(TEN27 * d, n, b);
    Cancel(TEN27 * b, a, d);
    ScaleBy(TEN28, d, b);
    ScaleLess(n, TEN28 * d, b);
    CancelLess(a, TEN28 * b, d);
    ScaleBy(q, d, b);
    assert (2 * (q * d)) * b == (2 * (q * b)) * d;
    assert (2 * n + d) * b == (2 * a + b) * d;
    assert (2 * n) * b == (2 * a) * d;
    assert (2 * (q * d) + d) * b == (2 * (q * b) + b) * d;
    ScaleLessEq(2 * (q * d), 2 * n + d, b);
    Cancel(2 * (q * b), 2 * a + b, d);
    ScaleLessEq(2 * n, 2 * (q * d) + d, b);
    Cancel(2 * a, 2 * (q * b) + b, d);
    if 2 * a == 2 * (q * b) + b {
      Cancel(2 * n, 2 * (q * d) + d, b);
      Cancel(2 * (q * d) + d, 2 * n, b);
    }
    if 2 * (q * b) == 2 * a + b {
      Cancel(2 * (q * d), 2 * n + d, b);
      Cancel(2 * n + d, 2 * (q * d), b);
    }
  }

  lemma ScaleBy(k: nat, d: nat, b: nat)
    ensures (k * d) * b == (k * b) * d
  {
  }

  lemma ScaledPowers(a: nat, b: nat, c: nat, d: nat)
    requires a + b == c + d
    ensures Pow10(a) * Pow10(b) == Pow10(c) * Pow10(d) == Pow10(a + b)
  {
    Pow10Sum(a, b);
    Pow10Sum(c, d);
  }

  lemma ScaleLess(x: nat, y: nat, k: nat)
    requires x < y && k >= 1
    ensures x * k < y * k
  {
  }

  lemma ScaleLessEq(x: nat, y: nat, k: nat)
    requires x <= y
    ensures x * k <= y * k
  {
  }

  lemma Pow10At28()
    ensures Pow10(27) == TEN27 && Pow10(28) == TEN28 && Pow10(29) == 10 * TEN28
  {
    Pow10At16();
    assert Pow10(11) == 100_000_000_000 by { assert Pow10(5) == 100_000; assert Pow10(6) == 1_000_000; Pow10Sum(5, 6); }
    Pow10Sum(16, 11);
    assert Pow10(28) == 10 * Pow10(27);
    assert Pow10(29) == 10 * Pow10(28);
  }

  /** The exponent of the rounded value comes from the two digit counts, off by at most one. */
  function RoundedExponent(n: nat, d: nat): int
    requires n >= 1 && d >= 1
  {
    var e := Digits(n) - Digits(d) - 28;
    if ScaledNumerator(n, e) < TEN28 * ScaledDenominator(d, e) then e else e + 1
  }

  function Round(n: nat, d: nat): (x: Decimal)
    requires n >= 1 && d >= 1
    ensures x.coeff >= 1
  {
    var e := RoundedExponent(n, d);
    RoundedRange(n, d);
    CoefficientBounds(ScaledNumerator(n, e), ScaledDenominator(d, e));
    Decimal(NearestEven(ScaledNumerator(n, e), ScaledDenominator(d, e)), e)
  }

  lemma RoundedRange(n: nat, d: nat)
    requires n >= 1 && d >= 1
    ensures var e := RoundedExponent(n, d);
      TEN27 * ScaledDenominator(d, e) <= ScaledNumerator(n, e) < TEN28 * ScaledDenominator(d, e)
  {
    var e := Digits(n) - Digits(d) - 28;
    DigitBounds(n, d, e);
    if ScaledNumerator(n, e) >= TEN28 * ScaledDenominator(d, e) { NextExponent(n, d, e); }
  }

  /** Every positive fraction has a correct 28-digit rounding and `Round` finds it. */
  lemma RoundIsCorrect(n: nat, d: nat)
    requires n >= 1 && d >= 1
    ensures Rounded(n, d, Round(n, d)) && TEN27 <= Round(n, d).coeff <= TEN28
  {
    var e := RoundedExponent(n, d);
    RoundedRange(n, d);
    CoefficientBounds(ScaledNumerator(n, e), ScaledDenominator(d, e));
  }

  lemma CoefficientBounds(n: nat, d: nat)
    requires d >= 1 && TEN27 * d <= n < TEN28 * d
    ensures TEN27 <= NearestEven(n, d) <= TEN28
  {
    var q := NearestEven(n, d);
    assert (q + 1) * d == q * d + d && (TEN28 + 1) * d == TEN28 * d + d;
    if q < TEN27 { ScaleLessEq(q + 1, TEN27, d); }
    if q > TEN28 { ScaleLessEq(TEN28 + 1, q, d); }
  }

  lemma NextExponent(n: nat, d: nat, e: int)
    requires d >= 1
    requires TEN28 * ScaledDenominator(d, e) <= ScaledNumerator(n, e) < 10 * TEN28 * ScaledDenominator(d, e)
    ensures TEN27 * ScaledDenominator(d, e + 1) <= ScaledNumerator(n, e + 1) < TEN28 * ScaledDenominator(d, e + 1)
  {
    if e < 0 {
      assert n * Pow10(-e) == 10 * (n * Pow10(-e - 1));
      assert e + 1 == 0 ==> Pow10(0) == 1;
      assert ScaledNumerator(n, e) == 10 * ScaledNumerator(n, e + 1);
    } else {
      assert d * Pow10(e + 1) == 10 * (d * Pow10(e));
      assert e == 0 ==> Pow10(0) == 1;
      assert ScaledDenominator(d, e + 1) == 10 * ScaledDenominator(d, e);
    }
  }

  /** `a / b` and `a * b` for positive decimals. */
  function Divide(a: Decimal, b: Decimal): (x: Decimal)
    requires a.coeff >= 1 && b.coeff >= 1
    ensures x.coeff >= 1
  {
    Round(QuotientNumerator(a, b), QuotientDenominator(a, b))
  }

  function QuotientNumerator(a: Decimal, b: Decimal): (n: nat)
    ensures a.coeff >= 1 ==> n >= 1
  {
    a.coeff * (if a.exp > b.exp then Pow10(a.exp - b.exp) else 1)
  }

  function QuotientDenominator(a: Decimal, b: Decimal): (d: nat)
    ensures b.coeff >= 1 ==> d >= 1
  {
    b.coeff * (if b.exp > a.exp then Pow10(b.exp - a.exp) else 1)
  }

  function Multiply(a: Decimal, b: Decimal): (x: Decimal)
    requires a.coeff >= 1 && b.coeff >= 1
    ensures x.coeff >= 1
  {
    var e := a.exp + b.exp;
    assert a.coeff * b.coeff >= 1;
    Round(ScaledDenominator(a.coeff * b.coeff, e), ScaledNumerator(1, e))
  }

  /** `to_integral_value(rounding=ROUND_FLOOR)` of a non-negative decimal. */
  function Floor(x: Decimal): nat {
    if x.exp >= 0 then x.coeff * Pow10(x.exp) else FloorDiv(x.coeff, Pow10(-x.exp))
  }
}
