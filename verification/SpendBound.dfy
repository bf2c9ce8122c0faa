/** `allowed_seconds` of the cost window: two 28-digit roundings and a floor
    (scripts/lambda_gpu_guard.py:563-567), compared with the exact quotient. */
module SpendBound {
  import opened DecimalArithmetic

  const MAX_RATE: nat := 10_000
  const MAX_COST: nat := 100_000

  /** The value in millionths of a dollar; exact for up to six decimals. */
  function Micros(x: Decimal): nat
    requires -6 <= x.exp <= 0
  {
    x.coeff * Pow10(6 + x.exp)
  }

  /** What `_positive_decimal` lets through. */
  predicate Accepted(x: Decimal, maximum: nat) {
    -6 <= x.exp <= 0 && 0 < Micros(x) <= maximum * 1_000_000
  }

  function AllowedSeconds(cost: Decimal, rate: Decimal): nat
    requires cost.coeff >= 1 && rate.coeff >= 1
  {
    Floor(Multiply(Divide(cost, rate), Decimal(3600, 0)))
  }

  /** The seconds the cap really pays for. */
  function ExactSeconds(cost: Decimal, rate: Decimal): (s: nat)
    requires Accepted(cost, MAX_COST) && Accepted(rate, MAX_RATE)
    ensures s * Micros(rate) <= 3600 * Micros(cost) < (s + 1) * Micros(rate)
  {
    FloorDiv(3600 * Micros(cost), Micros(rate))
  }

  lemma ExactSecondsUnique(cost: Decimal, rate: Decimal, s: nat)
    requires Accepted(cost, MAX_COST) && Accepted(rate, MAX_RATE)
    requires s * Micros(rate) <= 3600 * Micros(cost) < (s + 1) * Micros(rate)
    ensures ExactSeconds(cost, rate) == s
  {
    QuotientUnique(ExactSeconds(cost, rate), s, 3600 * Micros(cost), Micros(rate));
  }

  lemma QuotientUnique(p: nat, q: nat, n: nat, d: nat)
    requires p * d <= n < (p + 1) * d && q * d <= n < (q + 1) * d
    ensures p == q
  {
    if p < q { ScaleLessEq(p + 1, q, d); }
    if q < p { ScaleLessEq(q + 1, p, d); }
  }

  /** The quotient is a whole number of seconds whose residue modulo nine and
      leading digits make the two roundings fall short of it. */
  predicate RoundsBelow(cost: Decimal, rate: Decimal)
    requires Accepted(cost, MAX_COST) && Accepted(rate, MAX_RATE)
  {
    var s := ExactSeconds(cost, rate);
    s * Micros(rate) == 3600 * Micros(cost) && FallsShortOf(s)
  }

  /** Residue 3, 7 or 8 modulo nine, and decimal mantissa at least 3.6. */
  predicate FallsShortOf(s: nat) {
    s % 9 in {3, 7, 8} && 5 * s >= 18 * Pow10(Digits(s) - 1)
  }

  lemma QuotientInMicros(cost: Decimal, rate: Decimal)
    requires -6 <= cost.exp <= 0 && -6 <= rate.exp <= 0
    ensures QuotientNumerator(cost, rate) * Micros(rate) == Micros(cost) * QuotientDenominator(cost, rate)
  {
    var up := if cost.exp > rate.exp then cost.exp - rate.exp else 0;
    var down := if rate.exp > cost.exp then rate.exp - cost.exp else 0;
    assert Pow10(0) == 1;
    assert QuotientNumerator(cost, rate) == cost.coeff * Pow10(up);
    assert QuotientDenominator(cost, rate) == rate.coeff * Pow10(down);
    CrossProduct(cost.coeff, up, rate.coeff, 6 + rate.exp, 6 + cost.exp, down);
  }

  lemma CrossProduct(a: nat, up: nat, b: nat, j: nat, i: nat, down: nat)
    requires up + j == i + down
    ensures (a * Pow10(up)) * (b * Pow10(j)) == (a * Pow10(i)) * (b * Pow10(down))
  {
    ScaledPowers(up, j, i, down);
    Regroup(a, Pow10(up), b, Pow10(j));
    Regroup(a, Pow10(i), b, Pow10(down));
  }

  lemma Regroup(a: nat, x: nat, b: nat, y: nat)
    ensures (a * x) * (b * y) == (a * b) * (x * y)
  {
  }

  /** The first rounding, restated over the micro-dollar amounts c and r. */
  lemma FirstRounding(n: nat, d: nat, x: Decimal, c: nat, r: nat)
    requires Rounded(n, d, x) && d >= 1 && n * r == c * d
    requires 1 <= c <= MAX_COST * 1_000_000 && 1 <= r <= MAX_RATE * 1_000_000
    ensures x.exp <= -16
    ensures TEN27 * r <= c * Pow10(-x.exp) < TEN28 * r
    ensures HalfEven(c * Pow10(-x.exp), r, x.coeff)
    ensures Pow10(-x.exp) >= 10_000_000_000_000_000
  {
    if x.exp >= 0 {
      NotAWholeQuotient(n, d, x, c, r);
    } else {
      RoundedFraction(n, d, x);
      var k: nat := -x.exp;
      hide Rounded, HalfEven, Pow10;
      FirstRatio(n, d, Pow10(k), c, r, x.coeff);
      FarRight(k);
    }
  }

  lemma RoundedFraction(n: nat, d: nat, x: Decimal)
    requires Rounded(n, d, x) && x.exp < 0
    ensures TEN27 * d <= n * Pow10(-x.exp) < TEN28 * d && HalfEven(n * Pow10(-x.exp), d, x.coeff)
  {
    hide HalfEven, Pow10;
  }

  lemma NotAWholeQuotient(n: nat, d: nat, x: Decimal, c: nat, r: nat)
    requires d >= 1 && r >= 1 && n * r == c * d && 1 <= c <= 100_000_000_000 && x.exp >= 0
    ensures !Rounded(n, d, x)
  {
    ScaledUp(d, x.exp);
    hide HalfEven, Pow10, ScaledDenominator;
    SameRatioDenominator(n, d, ScaledDenominator(d, x.exp), c, r);
  }

  lemma ScaledUp(d: nat, e: nat)
    ensures ScaledDenominator(d, e) >= d
  {
    ScaleLessEq(1, Pow10(e), d);
  }

  lemma FarRight(k: nat)
    ensures Pow10(k) >= 10_000_000_000_000_000 ==> k >= 16
  {
    Pow10At16();
    if k < 16 { Pow10Monotone(k, 15); }
    hide Pow10;
  }

  lemma FirstRatio(n: nat, d: nat, m: nat, c: nat, r: nat, q: nat)
    requires d >= 1 && n * r == c * d
    requires 1 <= c <= 100_000_000_000 && r >= 1
    requires TEN27 * d <= n * m < TEN28 * d && HalfEven(n * m, d, q)
    ensures TEN27 * r <= c * m < TEN28 * r && HalfEven(c * m, r, q)
    ensures m >= 10_000_000_000_000_000
  {
    ScaleBy(n, m, r);
    ScaleBy(c, m, d);
    SameRatio(n * m, d, c * m, r, q);
    Magnitude(c, r, m);
  }

  lemma Magnitude(c: nat, r: nat, m: nat)
    requires 1 <= c <= 100_000_000_000 && r >= 1 && TEN27 * r <= c * m
    ensures m >= 10_000_000_000_000_000
  {
    ScaleLessEq(c, 100_000_000_000, m);
  }

  /** A quotient of accepted amounts is far below 10^27. */
  lemma SameRatioDenominator(n: nat, d: nat, sd: nat, c: nat, r: nat)
    requires d >= 1 && r >= 1 && n * r == c * d && 1 <= c <= 100_000_000_000
    requires sd >= d
    ensures n < TEN27 * sd
  {
    ScaleBy(TEN27, d, r);
    ScaleLess(c, TEN27 * r, d);
    CancelLess(n, TEN27 * d, r);
  }

  /** The second rounding: `3600 * q / 10^m` drops three or four digits. */
  lemma SecondRounding(q: nat, m: nat, z: Decimal) returns (s: nat)
    requires TEN27 <= q <= TEN28 && m >= 16
    requires Rounded(3600 * q, Pow10(m), z)
    ensures s in {3, 4} && z.exp == s - m
    ensures HalfEven(3600 * q, Pow10(s), z.coeff)
    ensures s == 3 <==> 3600 * q < TEN28 * 1000
  {
    s := 3;
    if z.exp >= 0 {
      NegativeExponent(3600 * q, m, z.exp);
    } else {
      SecondExponent(3600 * q, m, -z.exp);
      s := m + z.exp;
      SecondRatio(3600 * q, m, s, z.coeff);
    }
  }

  lemma SecondRatio(p: nat, m: nat, s: nat, q: nat)
    requires s in {3, 4} && s <= m
    requires TEN27 * Pow10(m) <= p * Pow10(m - s) < TEN28 * Pow10(m) && HalfEven(p * Pow10(m - s), Pow10(m), q)
    requires p >= 3600 * TEN27
    ensures HalfEven(p, Pow10(s), q)
    ensures s == 3 <==> p < TEN28 * 1000
  {
    Pow10Sum(s, m - s);
    Associate(p, Pow10(m - s), Pow10(s));
    SameRatio(p * Pow10(m - s), Pow10(m), p, Pow10(s), q);
    ThousandOrTen(s);
  }

  lemma Associate(p: nat, x: nat, y: nat)
    ensures (p * x) * y == p * (y * x)
  {
  }

  lemma ThousandOrTen(s: nat)
    requires s in {3, 4}
    ensures Pow10(s) == if s == 3 then 1000 else 10_000
  {
    assert Pow10(4) == 10 * Pow10(3) && Pow10(3) == 1000;
  }

  lemma NegativeExponent(p: nat, m: nat, e: nat)
    requires p <= 3600 * TEN28 && m >= 16
    ensures ScaledNumerator(p, e) < TEN27 * ScaledDenominator(Pow10(m), e)
  {
    Pow10Monotone(16, m);
    Pow10At16();
    ScaleLessEq(1, Pow10(e), Pow10(m));
    assert e == 0 ==> Pow10(e) == 1;
  }

  lemma SecondExponent(p: nat, m: nat, k: nat)
    requires 3600 * TEN27 <= p <= 3600 * TEN28 && m >= 16
    requires TEN27 * Pow10(m) <= p * Pow10(k) < TEN28 * Pow10(m)
    ensures k == m - 3 || k == m - 4
  {
    if k <= m - 5 {
      FewDigits(p, m, k);
    } else if k >= m - 2 {
      ManyDigits(p, m, k);
    }
  }

  lemma FewDigits(p: nat, m: nat, k: nat)
    requires p <= 3600 * TEN28 && k + 5 <= m
    ensures p * Pow10(k) < TEN27 * Pow10(m)
  {
    assert Pow10(5) == 100_000;
    Pow10Sum(5, m - 5);
    Pow10Monotone(k, m - 5);
    TooSmall(p, Pow10(k), Pow10(m - 5));
  }

  lemma ManyDigits(p: nat, m: nat, k: nat)
    requires p >= 3600 * TEN27 && k + 2 >= m >= 16
    ensures p * Pow10(k) >= TEN28 * Pow10(m)
  {
    assert Pow10(3) == 1000 && Pow10(5) == 100_000;
    Pow10Sum(5, m - 5);
    Pow10Sum(3, m - 5);
    Pow10Monotone(m - 2, k);
    TooLarge(p, Pow10(k), Pow10(m - 5));
  }

  lemma TooSmall(p: nat, k: nat, u: nat)
    requires p <= 3600 * TEN28 && 1 <= k <= u
    ensures p * k < TEN27 * (100_000 * u)
  {
    ScaleLessEq(k, u, p);
    ScaleLessEq(p, 3600 * TEN28, u);
  }

  lemma TooLarge(p: nat, k: nat, u: nat)
    requires p >= 3600 * TEN27 && 1000 * u <= k
    ensures p * k >= TEN28 * (100_000 * u)
  {
    ScaleLessEq(1000 * u, k, p);
    ScaleLessEq(3600 * TEN27, p, 1000 * u);
  }

  /** w = S * z is within 6800 of the exact product, in units of 1/M seconds. */
  lemma TotalError(c: nat, r: nat, m: nat, q: nat, w: nat)
    requires HalfEven(c * m, r, q)
    requires 2 * w <= 7200 * q + 10_000 && 7200 * q <= 2 * w + 10_000
    ensures w * r <= 3600 * (c * m) + 6800 * r
    ensures 3600 * (c * m) <= w * r + 6800 * r
  {
    ErrorInOne(q, w, r);
    HalfEvenBounds(c * m, r, q);
  }

  lemma HalfEvenBounds(n: nat, d: nat, q: nat)
    requires HalfEven(n, d, q)
    ensures 2 * (q * d) <= 2 * n + d && 2 * n <= 2 * (q * d) + d
  {
  }

  lemma ErrorInOne(q: nat, w: nat, r: nat)
    requires 2 * w <= 7200 * q + 10_000 && 7200 * q <= 2 * w + 10_000
    ensures 2 * (w * r) <= 7200 * (q * r) + 10_000 * r && 7200 * (q * r) <= 2 * (w * r) + 10_000 * r
  {
    ScaleLessEq(2 * w, 7200 * q + 10_000, r);
    ScaleLessEq(7200 * q, 2 * w + 10_000, r);
    Distributed(7200, q, 10_000, r);
    Distributed(2, w, 10_000, r);
    Distributed(2, w, 0, r);
    Distributed(7200, q, 0, r);
  }

  lemma Distributed(k: nat, x: nat, a: nat, r: nat)
    ensures (k * x + a) * r == k * (x * r) + a * r
  {
  }

  lemma WithinOneSecond(c: nat, r: nat, m: nat, w: nat, a: nat, e: nat)
    requires 1 <= r <= MAX_RATE * 1_000_000 && m >= 10_000_000_000_000_000
    requires w * r <= 3600 * (c * m) + 6800 * r && 3600 * (c * m) <= w * r + 6800 * r
    requires a * m <= w < (a + 1) * m
    requires e * r <= 3600 * c < (e + 1) * r
    ensures e - 1 <= a <= e
    ensures e * r < 3600 * c ==> a == e
  {
    assert (3600 * c) * m == 3600 * (c * m);
    assert m * r >= 10_000_000_000_000_000 * r by { ScaleLessEq(10_000_000_000_000_000, m, r); }
    if a > e { NotAbove(3600 * c, r, m, w, a, e); }
    if a + 1 < e { NotTwoBelow(3600 * c, r, m, w, a, e); }
    if e * r < 3600 * c && a < e { NotBelow(3600 * c, r, m, w, a, e); }
  }

  lemma NotAbove(p: nat, r: nat, m: nat, w: nat, a: nat, e: nat)
    requires e < a && a * m <= w && p < (e + 1) * r
    ensures w * r >= p * m + m
  {
    Chain(e + 1, a, m, w, r);
    ScaleLessEq(p + 1, (e + 1) * r, m);
    ScaleBy(e + 1, r, m);
    assert (p + 1) * m == p * m + m;
  }

  lemma NotTwoBelow(p: nat, r: nat, m: nat, w: nat, a: nat, e: nat)
    requires a + 1 < e && w < (a + 1) * m && e * r <= p && r >= 1
    ensures w * r + m * r < p * m
  {
    ChainBelow(a + 1, e - 1, m, w, r);
    ScaleLessEq(e * r, p, m);
    ScaleBy(e, r, m);
    assert (e - 1) * m + m == e * m;
    assert ((e - 1) * m) * r + m * r == (e * m) * r;
  }

  lemma NotBelow(p: nat, r: nat, m: nat, w: nat, a: nat, e: nat)
    requires a < e && w < (a + 1) * m && e * r < p && r >= 1
    ensures w * r + m < p * m
  {
    ChainBelow(a + 1, e, m, w, r);
    ScaleLessEq(e * r + 1, p, m);
    ScaleBy(e, m, r);
    assert (e * r + 1) * m == (e * r) * m + m;
  }

  lemma Chain(x: nat, y: nat, m: nat, w: nat, r: nat)
    requires x <= y && y * m <= w
    ensures (x * m) * r <= w * r
  {
    ScaleLessEq(x, y, m);
    ScaleLessEq(x * m, w, r);
  }

  lemma ChainBelow(x: nat, y: nat, m: nat, w: nat, r: nat)
    requires x <= y && w < x * m && r >= 1
    ensures w * r < (y * m) * r
  {
    ScaleLessEq(x, y, m);
    ScaleLess(w, y * m, r);
  }

  /** Powers of ten are one more than a multiple of nine. */
  lemma {:induction false} Pow10Mod9(n: nat) returns (t: nat)
    ensures Pow10(n) == 9 * t + 1 && Pow10(n) % 9 == 1
  {
    t := 0;
    if n > 0 {
      var before := Pow10Mod9(n - 1);
      t := 10 * before + 1;
      assert Pow10(n) == 10 * Pow10(n - 1);
    }
    assert Pow10(n) == 9 * t + 1;
    hide Pow10;
    OneOverNine(Pow10(n), t);
  }

  lemma OneOverNine(p: nat, t: nat)
    requires p == 9 * t + 1
    ensures p % 9 == 1
  {
  }

  /** When the quotient is a whole number e of seconds, both roundings can be
      followed exactly: e * 10^m leaves g = 7e (mod 9) over 3600ths. */
  lemma WholeSeconds(e: nat, m: nat, q: nat, s: nat, z: nat)
    requires m >= 16 && s in {3, 4}
    requires 2 * (e * Pow10(m)) <= 7200 * q + 3600 && 7200 * q <= 2 * (e * Pow10(m)) + 3600
    requires HalfEven(3600 * q, Pow10(s), z)
    ensures z * Pow10(s) < e * Pow10(m) <==> s == 3 && e % 9 in {3, 7, 8}
    ensures e % 9 in {3, 7, 8} ==> e * Pow10(m) - 1600 <= 3600 * q <= e * Pow10(m)
  {
    var v := TenThousands(e, m);
    ThousandOrTen(s);
    if s == 3 { NearestThousand(v, q, z); } else { NearestTenThousand(v, q, z); }
  }

  lemma TenThousands(e: nat, m: nat) returns (v: nat)
    requires m >= 4
    ensures e * Pow10(m) == 10_000 * v
    ensures (25 * v) % 9 in {2, 3, 4} <==> e % 9 in {3, 7, 8}
  {
    v := e * Pow10(m - 4);
    Pow10Sum(4, m - 4);
    ThousandOrTen(4);
    Associate(e, Pow10(m - 4), 10_000);
    var t := Pow10Mod9(m - 4);
    ModProduct(e, Pow10(m - 4), t);
    Residues(e, v);
  }

  lemma Residues(e: nat, v: nat)
    requires v % 9 == e % 9
    ensures (25 * v) % 9 in {2, 3, 4} <==> e % 9 in {3, 7, 8}
  {
    assert (25 * v) % 9 == (7 * (e % 9)) % 9;
  }

  lemma ModProduct(e: nat, u: nat, t: nat)
    requires u == 9 * t + 1
    ensures (e * u) % 9 == e % 9
  {
    assert e * u == 9 * (e * t) + e;
  }

  lemma NearestThousand(v: nat, q: nat, z: nat)
    requires 20_000 * v <= 7200 * q + 3600 && 7200 * q <= 20_000 * v + 3600
    requires HalfEven(3600 * q, 1000, z)
    ensures z * 1000 < 10_000 * v <==> (25 * v) % 9 in {2, 3, 4}
    ensures (25 * v) % 9 in {2, 3, 4} ==> 10_000 * v - 1600 <= 3600 * q <= 10_000 * v
  {
    var g := 25 * v - 9 * q;
    Residue(25 * v, q, g);
    RoundedShift(10 * v - z, g);
  }

  lemma NearestTenThousand(v: nat, q: nat, z: nat)
    requires 20_000 * v <= 7200 * q + 3600 && 7200 * q <= 20_000 * v + 3600
    requires HalfEven(3600 * q, 10_000, z)
    ensures z == v
    ensures (25 * v) % 9 in {2, 3, 4} ==> 10_000 * v - 1600 <= 3600 * q <= 10_000 * v
  {
    Residue(25 * v, q, 25 * v - 9 * q);
  }

  lemma Residue(n: nat, q: nat, g: int)
    requires n == 9 * q + g && -4 <= g <= 4
    ensures n % 9 == if g < 0 then g + 9 else g
  {
  }

  lemma RoundedShift(j: int, g: int)
    requires -500 <= 1000 * j - 400 * g <= 500 && -4 <= g <= 4
    ensures j > 0 <==> 2 <= g
  {
  }

  /** Leading digits of e fix which of the two digit counts applies. */
  lemma LeadingDigits(e: nat, m: nat)
    requires e >= 1
    requires 3600 * TEN27 <= e * Pow10(m) < 3600 * TEN28
    ensures 5 * e >= 18 * Pow10(Digits(e) - 1) <==> e * Pow10(m) < TEN28 * 1000
    ensures e * Pow10(m) >= TEN28 * 1000 ==> e == Pow10(Digits(e) - 1) || e * Pow10(m) >= TEN28 * 1000 + Pow10(m)
  {
    var k := Digits(e) - 1;
    assert Pow10(k + 1) == 10 * Pow10(k);
    Pow10Sum(k, m);
    Decade(e, Pow10(k), Pow10(m));
    WhichPower(k + m, e * Pow10(m));
    Mantissa(e, Pow10(k), Pow10(m));
    if e > Pow10(k) { NextMultiple(e, Pow10(k), Pow10(m)); }
  }

  lemma Decade(e: nat, p: nat, m: nat)
    requires p <= e < 10 * p && m >= 1
    ensures p * m <= e * m < 10 * (p * m)
  {
    ScaleLessEq(p, e, m);
    ScaleLess(e, 10 * p, m);
  }

  lemma WhichPower(t: nat, v: nat)
    requires 3600 * TEN27 <= v < 3600 * TEN28 && Pow10(t) <= v < 10 * Pow10(t)
    ensures Pow10(t) in {100 * TEN28, 1000 * TEN28}
  {
    Pow10At31();
    if t <= 29 { Pow10Monotone(t, 29); }
    if t >= 32 { Pow10Monotone(32, t); }
  }

  lemma NextMultiple(e: nat, p: nat, m: nat)
    requires e > p
    ensures e * m >= p * m + m
  {
    ScaleLessEq(p + 1, e, m);
    assert (p + 1) * m == p * m + m;
  }

  lemma Mantissa(e: nat, p: nat, m: nat)
    requires m >= 1
    ensures 5 * e >= 18 * p <==> 5 * (e * m) >= 18 * (p * m)
  {
    if 5 * e >= 18 * p { ScaleLessEq(18 * p, 5 * e, m); } else { ScaleLess(5 * e, 18 * p, m); }
  }

  lemma Pow10At31()
    ensures Pow10(29) == 10 * TEN28 && Pow10(30) == 100 * TEN28
    ensures Pow10(31) == 1000 * TEN28 && Pow10(32) == 10_000 * TEN28
  {
    Pow10At28();
    assert Pow10(30) == 10 * Pow10(29);
    assert Pow10(31) == 10 * Pow10(30);
    assert Pow10(32) == 10 * Pow10(31);
  }

  /** The whole computation, exactly: the floor of 3600 * cost / rate, less one
      second in the cases named by `RoundsBelow` and in no other. */
  lemma AllowedSecondsExactly(cost: Decimal, rate: Decimal)
    requires Accepted(cost, MAX_COST) && Accepted(rate, MAX_RATE)
    ensures cost.coeff >= 1 && rate.coeff >= 1
    ensures AllowedSeconds(cost, rate) == ExactSeconds(cost, rate) - (if RoundsBelow(cost, rate) then 1 else 0)
  {
    hide FloorDiv, Floor, Multiply, Round, FallsShortOf;
    QuotientInMicros(cost, rate);
    PositiveCoefficient(cost.coeff, Pow10(6 + cost.exp));
    PositiveCoefficient(rate.coeff, Pow10(6 + rate.exp));
    AllowedFromRatio(QuotientNumerator(cost, rate), QuotientDenominator(cost, rate),
                     Micros(cost), Micros(rate), ExactSeconds(cost, rate));
  }

  lemma PositiveCoefficient(k: nat, p: nat)
    requires k * p > 0
    ensures k >= 1
  {
  }

  lemma AllowedFromRatio(n: nat, d: nat, c: nat, r: nat, e: nat)
    requires n >= 1 && d >= 1 && n * r == c * d
    requires 1 <= c <= MAX_COST * 1_000_000 && 1 <= r <= MAX_RATE * 1_000_000
    requires e * r <= 3600 * c < (e + 1) * r
    ensures Floor(Multiply(Round(n, d), Decimal(3600, 0)))
         == e - if e * r == 3600 * c && FallsShortOf(e) then 1 else 0
  {
    var x := Round(n, d);
    RoundIsCorrect(n, d);
    FirstRounding(n, d, x, c, r);
    TimesAnHour(x);
    var z := Multiply(x, Decimal(3600, 0));
    var s := SecondRounding(x.coeff, -x.exp, z);
    TwoRoundings(c, r, e, x.coeff, -x.exp, s, z.coeff, Floor(z));
  }

  lemma TimesAnHour(x: Decimal)
    requires x.coeff >= 1 && x.exp < 0
    ensures Rounded(3600 * x.coeff, Pow10(-x.exp), Multiply(x, Decimal(3600, 0)))
  {
    RoundIsCorrect(3600 * x.coeff, Pow10(-x.exp));
    assert x.coeff * 3600 == 3600 * x.coeff;
    assert ScaledNumerator(1, x.exp) == Pow10(-x.exp);
  }

  lemma TwoRoundings(c: nat, r: nat, e: nat, q: nat, m: nat, s: nat, z: nat, a: nat)
    requires 1 <= c <= MAX_COST * 1_000_000 && 1 <= r <= MAX_RATE * 1_000_000
    requires e * r <= 3600 * c < (e + 1) * r
    requires m >= 16 && Pow10(m) >= 10_000_000_000_000_000 && s in {3, 4}
    requires TEN27 * r <= c * Pow10(m) < TEN28 * r && HalfEven(c * Pow10(m), r, q)
    requires HalfEven(3600 * q, Pow10(s), z)
    requires s == 3 <==> 3600 * q < TEN28 * 1000
    requires a == FloorDiv(z, Pow10(m - s))
    ensures a == e - if e * r == 3600 * c && FallsShortOf(e) then 1 else 0
  {
    FloorScaled(z, m, s, a);
    ThousandOrTen(s);
    TotalError(c, r, Pow10(m), q, z * Pow10(s));
    WithinOneSecond(c, r, Pow10(m), z * Pow10(s), a, e);
    if e * r == 3600 * c {
      WholeScaled(e, Pow10(m), q, c, r);
      WholeSecondsExactly(e, m, q, s, z, a);
    }
  }

  lemma FloorScaled(z: nat, m: nat, s: nat, a: nat)
    requires s < m && a == FloorDiv(z, Pow10(m - s))
    ensures a * Pow10(m) <= z * Pow10(s) < (a + 1) * Pow10(m)
  {
    var p := Pow10(m - s);
    Pow10Sum(m - s, s);
    ScaleLessEq(a * p, z, Pow10(s));
    ScaleLess(z, (a + 1) * p, Pow10(s));
    Associate(a, p, Pow10(s));
    Associate(a + 1, p, Pow10(s));
    assert p * Pow10(s) == Pow10(s) * p;
  }

  lemma WholeSecondsExactly(e: nat, m: nat, q: nat, s: nat, z: nat, a: nat)
    requires m >= 16 && s in {3, 4} && e >= 1 && Pow10(m) >= 1600
    requires 3600 * TEN27 <= e * Pow10(m) < 3600 * TEN28
    requires 2 * (e * Pow10(m)) <= 7200 * q + 3600 && 7200 * q <= 2 * (e * Pow10(m)) + 3600
    requires HalfEven(3600 * q, Pow10(s), z)
    requires s == 3 <==> 3600 * q < TEN28 * 1000
    requires a * Pow10(m) <= z * Pow10(s) < (a + 1) * Pow10(m) && e - 1 <= a <= e
    ensures a < e <==> FallsShortOf(e)
  {
    WholeSeconds(e, m, q, s, z);
    LeadingDigits(e, m);
    FallsShort(a, e, Pow10(m), z * Pow10(s));
    if e == Pow10(Digits(e) - 1) { var t := Pow10Mod9(Digits(e) - 1); }
    Combine(e, Pow10(Digits(e) - 1), e * Pow10(m), Pow10(m), 3600 * q, z * Pow10(s), s == 3, a < e);
  }

  lemma Combine(e: nat, p: nat, exact: nat, m: nat, first: nat, second: nat, three: bool, short: bool)
    requires second < exact <==> three && e % 9 in {3, 7, 8}
    requires e % 9 in {3, 7, 8} ==> exact - 1600 <= first <= exact
    requires 5 * e >= 18 * p <==> exact < TEN28 * 1000
    requires exact >= TEN28 * 1000 ==> e == p || exact >= TEN28 * 1000 + m
    requires e == p ==> e % 9 == 1
    requires three <==> first < TEN28 * 1000
    requires short <==> second < exact
    requires m >= 1600
    ensures short <==> e % 9 in {3, 7, 8} && 5 * e >= 18 * p
  {
  }

  lemma FallsShort(a: nat, e: nat, m: nat, w: nat)
    requires a * m <= w < (a + 1) * m && e - 1 <= a <= e
    ensures a < e <==> w < e * m
  {
  }

  lemma WholeScaled(e: nat, m: nat, q: nat, c: nat, r: nat)
    requires e * r == 3600 * c && r >= 1 && c >= 1
    requires TEN27 * r <= c * m < TEN28 * r && HalfEven(c * m, r, q)
    ensures e >= 1
    ensures 3600 * TEN27 <= e * m < 3600 * TEN28
    ensures 2 * (e * m) <= 7200 * q + 3600 && 7200 * q <= 2 * (e * m) + 3600
  {
    assert (e * m) * r == (e * r) * m == 3600 * (c * m);
    Cancel(3600 * TEN27, e * m, r);
    CancelLess(e * m, 3600 * TEN28, r);
    assert (7200 * q + 3600) * r == 7200 * (q * r) + 3600 * r;
    Cancel(2 * (e * m), 7200 * q + 3600, r);
    assert (2 * (e * m) + 3600) * r == 7200 * (c * m) + 3600 * r;
    Cancel(7200 * q, 2 * (e * m) + 3600, r);
  }

  /** The granted seconds never cost more than the cap and fall short of it by less than two. */
  lemma AllowedWithinCap(cost: Decimal, rate: Decimal)
    requires Accepted(cost, MAX_COST) && Accepted(rate, MAX_RATE)
    ensures cost.coeff >= 1 && rate.coeff >= 1
    ensures Micros(rate) * AllowedSeconds(cost, rate) <= 3600 * Micros(cost) < Micros(rate) * (AllowedSeconds(cost, rate) + 2)
    ensures AllowedSeconds(cost, rate) >= 1 <==> Micros(rate) <= 3600 * Micros(cost)
  {
    AllowedSecondsExactly(cost, rate);
    if RoundsBelow(cost, rate) { RoundsBelowThree(cost, rate); }
    PositiveMicros(cost, rate);
    hide Accepted, Micros, AllowedSeconds, ExactSeconds, RoundsBelow;
    CapArithmetic(Micros(rate), Micros(cost), ExactSeconds(cost, rate), AllowedSeconds(cost, rate));
  }

  lemma RoundsBelowThree(cost: Decimal, rate: Decimal)
    requires Accepted(cost, MAX_COST) && Accepted(rate, MAX_RATE) && RoundsBelow(cost, rate)
    ensures ExactSeconds(cost, rate) >= 3
  {
    hide Micros, ExactSeconds;
  }

  lemma PositiveMicros(cost: Decimal, rate: Decimal)
    requires Accepted(cost, MAX_COST) && Accepted(rate, MAX_RATE)
    ensures Micros(rate) >= 1
    ensures ExactSeconds(cost, rate) * Micros(rate) <= 3600 * Micros(cost) < (ExactSeconds(cost, rate) + 1) * Micros(rate)
  {
    hide Micros, ExactSeconds;
  }

  lemma CapArithmetic(r: nat, c: nat, e: nat, a: nat)
    requires r >= 1 && e * r <= 3600 * c < (e + 1) * r
    requires a == e || (e >= 3 && a == e - 1)
    ensures r * a <= 3600 * c < r * (a + 2)
    ensures a >= 1 <==> r <= 3600 * c
  {
    ScaleLessEq(a, e, r);
    ScaleLessEq(e + 1, a + 2, r);
    if e >= 1 { ScaleLessEq(1, e, r); }
  }
}
