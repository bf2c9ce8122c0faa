/** The text forms that cross the process boundary: `_positive_decimal`,
    `_bounded_integer` and `_decimal_text` of scripts/lambda_gpu_guard.py. */
module DecimalText {
  import opened Wrappers
  import opened DecimalArithmetic

  predicate IsDigit(c: char) { '0' <= c <= '9' }

  predicate AllDigits(s: string) { forall i :: 0 <= i < |s| ==> IsDigit(s[i]) }

  function DigitChar(d: nat): (c: char)
    requires d < 10
    ensures IsDigit(c) && DigitValue(c) == d
  {
    '0' + d as char
  }

  function DigitValue(c: char): (d: nat)
    requires IsDigit(c)
    ensures d < 10
  {
    c as int - '0' as int
  }

  /** The integer a digit string denotes. */
  function Number(s: string): nat
    requires AllDigits(s)
  {
    if s == "" then 0 else 10 * Number(s[..|s| - 1]) + DigitValue(s[|s| - 1])
  }

  /** The shortest digit string of an integer. */
  function Numeral(n: nat): (s: string)
    ensures AllDigits(s) && |s| >= 1
    ensures n >= 1 ==> s[0] != '0'
  {
    if n < 10 then [DigitChar(n)] else Numeral(n / 10) + [DigitChar(n % 10)]
  }

  function Zeros(k: nat): (s: string)
    ensures |s| == k && forall i :: 0 <= i < k ==> s[i] == '0'
  {
    seq(k, i => '0')
  }

  function PadTo(s: string, width: nat): string {
    if |s| >= width then s else Zeros(width - |s|) + s
  }

  function PointAt(s: string): (p: nat)
    ensures p <= |s|
    ensures p < |s| ==> s[p] == '.'
    ensures forall i :: 0 <= i < p ==> s[i] != '.'
  {
    if s == "" || s[0] == '.' then 0 else 1 + PointAt(s[1..])
  }

  /** The regular expression `(?:0|[1-9][0-9]*)(?:\.[0-9]{1,6})?\Z`. */
  predicate Matches(s: string) {
    var p := PointAt(s);
    && p >= 1 && AllDigits(s[..p]) && (s[0] == '0' ==> p == 1)
    && (p < |s| ==> AllDigits(s[p + 1..]) && 1 <= |s[p + 1..]| <= 6)
  }

  /** `Decimal(value)` on a matching text: its digits and minus its fraction length. */
  function ReadDecimal(s: string): (x: Decimal)
    requires Matches(s)
    ensures -6 <= x.exp <= 0
  {
    var p := PointAt(s);
    if p == |s| then Decimal(Number(s[..p]), 0)
    else Decimal(Number(s[..p] + s[p + 1..]), -(|s| - p - 1))
  }

  /** `format(value, "f")` for a non-positive exponent. */
  function WriteDecimal(x: Decimal): string
    requires x.exp <= 0
  {
    WithPoint(PadTo(Numeral(x.coeff), -x.exp + 1), -x.exp)
  }

  function WithPoint(digits: string, scale: nat): string
    requires |digits| > scale
  {
    if scale == 0 then digits
    else digits[..|digits| - scale] + "." + digits[|digits| - scale..]
  }

  /** `_bounded_integer`: ASCII decimal digits, value within limits. */
  function ReadInteger(s: string, minimum: nat, maximum: nat): Option<nat> {
    if s != "" && AllDigits(s) && minimum <= Number(s) <= maximum then Some(Number(s)) else None
  }

  lemma {:induction false} NumberOfNumeral(n: nat)
    ensures Number(Numeral(n)) == n
  {
    var s := Numeral(n);
    if n >= 10 {
      NumberOfNumeral(n / 10);
      assert s[..|s| - 1] == Numeral(n / 10);
    } else {
      assert s[..|s| - 1] == "";
    }
  }

  lemma {:induction false} NumberOfPadded(k: nat, s: string)
    requires AllDigits(s)
    ensures AllDigits(Zeros(k) + s) && Number(Zeros(k) + s) == Number(s)
  {
    var t := Zeros(k) + s;
    if |t| > 0 {
      if s == "" {
        NumberOfPadded(k - 1, s);
        assert t[..|t| - 1] == Zeros(k - 1) + s;
      } else {
        NumberOfPadded(k, s[..|s| - 1]);
        assert t[..|t| - 1] == Zeros(k) + s[..|s| - 1];
      }
    }
  }

  /** Padding back to the original width restores a digit string. */
  lemma {:induction false} NumeralOfNumber(s: string)
    requires AllDigits(s) && |s| >= 1
    ensures PadTo(Numeral(Number(s)), |s|) == s
  {
    var init, c := s[..|s| - 1], s[|s| - 1];
    var d := DigitValue(c);
    assert DigitChar(d) == c && s == init + [c];
    assert Number(s) == 10 * Number(init) + d;
    NumeralStep(Number(init), d);
    if |s| == 1 {
      assert init == "" && Number(init) == 0;
    } else {
      NumeralOfNumber(init);
      hide IsDigit, PadTo, DigitValue, Number, Numeral;
      if Number(init) == 0 {
        NumeralOfZero();
        PadZero(init, c);
      } else {
        PadAppend(Numeral(Number(init)), c, |init|);
      }
    }
  }

  lemma NumeralStep(k: nat, d: nat)
    requires d < 10
    ensures Numeral(10 * k + d) == if k == 0 then [DigitChar(d)] else Numeral(k) + [DigitChar(d)]
  {
  }

  lemma NumeralOfZero()
    ensures Numeral(0) == "0"
  {
  }

  lemma PadZero(init: string, c: char)
    requires |init| >= 1 && PadTo("0", |init|) == init
    ensures PadTo([c], |init| + 1) == init + [c]
  {
    assert PadTo("0", |init|) == Zeros(|init|);
  }

  lemma PadAppend(s: string, c: char, width: nat)
    ensures PadTo(s + [c], width + 1) == PadTo(s, width) + [c]
  {
    if |s| < width { assert Zeros(width - |s|) + (s + [c]) == (Zeros(width - |s|) + s) + [c]; }
  }

  lemma {:induction false} PointFound(s: string, p: nat)
    requires p <= |s| && (forall i :: 0 <= i < p ==> s[i] != '.') && (p < |s| ==> s[p] == '.')
    ensures PointAt(s) == p
  {
    if p > 0 { PointFound(s[1..], p - 1); }
  }

  /** Printing then parsing gives the same coefficient and exponent. */
  lemma ReadOfWrite(x: Decimal)
    requires -6 <= x.exp <= 0 && x.coeff >= 1
    ensures Matches(WriteDecimal(x)) && ReadDecimal(WriteDecimal(x)) == x
  {
    var digits := PadTo(Numeral(x.coeff), -x.exp + 1);
    PaddedDigits(x.coeff, -x.exp + 1);
    ReadWithPoint(digits, -x.exp);
  }

  lemma PaddedDigits(n: nat, width: nat)
    requires n >= 1
    ensures var s := PadTo(Numeral(n), width);
      |s| >= width && AllDigits(s) && Number(s) == n && (s[0] == '0' ==> |s| == width)
  {
    NumberOfNumeral(n);
    if |Numeral(n)| < width { NumberOfPadded(width - |Numeral(n)|, Numeral(n)); }
  }

  lemma ReadWithPoint(digits: string, scale: nat)
    requires AllDigits(digits) && |digits| > scale && scale <= 6
    requires digits[0] == '0' ==> |digits| == scale + 1
    ensures var s := WithPoint(digits, scale);
      Matches(s) && ReadDecimal(s) == Decimal(Number(digits), 0 - scale)
  {
    if scale == 0 {
      ReadWhole(digits);
    } else {
      var whole, fraction := digits[..|digits| - scale], digits[|digits| - scale..];
      assert whole + fraction == digits;
      ReadParts(whole, fraction);
    }
  }

  lemma ReadWhole(s: string)
    requires AllDigits(s) && |s| >= 1 && (s[0] == '0' ==> |s| == 1)
    ensures Matches(s) && ReadDecimal(s) == Decimal(Number(s), 0)
  {
    PointFound(s, |s|);
    assert s[..|s|] == s;
  }

  lemma ReadParts(whole: string, fraction: string)
    requires AllDigits(whole) && AllDigits(fraction) && |whole| >= 1 && 1 <= |fraction| <= 6
    requires whole[0] == '0' ==> |whole| == 1
    ensures var s := whole + "." + fraction;
      Matches(s) && AllDigits(whole + fraction) && ReadDecimal(s) == Decimal(Number(whole + fraction), 0 - |fraction|)
  {
    var s := whole + "." + fraction;
    SplitAtPoint(whole, fraction);
    assert s[0] == whole[0];
  }

  lemma SplitAtPoint(whole: string, fraction: string)
    requires AllDigits(whole)
    ensures var s := whole + "." + fraction;
      PointAt(s) == |whole| && s[..|whole|] == whole && s[|whole| + 1..] == fraction
  {
    var s := whole + "." + fraction;
    assert forall i :: 0 <= i < |whole| ==> s[i] == whole[i];
    PointFound(s, |whole|);
  }

  /** Parsing then printing gives back the operator's own text. */
  lemma WriteOfRead(s: string)
    requires Matches(s) && ReadDecimal(s).coeff >= 1
    ensures WriteDecimal(ReadDecimal(s)) == s
  {
    hide WriteDecimal, ReadDecimal;
    if PointAt(s) == |s| { WriteOfWhole(s); } else { WriteOfParts(s); }
  }

  lemma WriteOfWhole(s: string)
    requires Matches(s) && ReadDecimal(s).coeff >= 1 && PointAt(s) == |s|
    ensures WriteDecimal(ReadDecimal(s)) == s
  {
    hide PointAt, PadTo, Numeral, Number;
    assert s[..|s|] == s;
    Restored(s, 1);
  }

  lemma WriteOfParts(s: string)
    requires Matches(s) && ReadDecimal(s).coeff >= 1 && PointAt(s) < |s|
    ensures WriteDecimal(ReadDecimal(s)) == s
  {
    var whole, fraction := Halves(s);
    hide PadTo, Numeral, Number, WithPoint, PointAt, Matches, ReadDecimal, WriteDecimal, AllDigits;
    ReadParts(whole, fraction);
    WriteParts(whole, fraction);
  }

  lemma WriteParts(whole: string, fraction: string)
    requires |whole| >= 1 && |fraction| >= 1 && AllDigits(whole + fraction)
    requires (whole + fraction)[0] == '0' ==> |whole| == 1
    ensures WriteDecimal(Decimal(Number(whole + fraction), 0 - |fraction|)) == whole + "." + fraction
  {
    hide PadTo, Numeral, Number, WithPoint, AllDigits;
    Restored(whole + fraction, |fraction| + 1);
    JoinParts(whole, fraction);
  }

  lemma Halves(s: string) returns (whole: string, fraction: string)
    requires Matches(s) && PointAt(s) < |s|
    ensures s == whole + "." + fraction && AllDigits(whole) && AllDigits(fraction)
    ensures |whole| >= 1 && 1 <= |fraction| <= 6 && (whole[0] == '0' ==> |whole| == 1)
    ensures (whole + fraction)[0] == whole[0]
  {
    hide PointAt, IsDigit;
    var p := PointAt(s);
    whole, fraction := s[..p], s[p + 1..];
    assert s == whole + "." + fraction;
  }

  lemma JoinParts(whole: string, fraction: string)
    requires |whole| >= 1 && |fraction| >= 1
    ensures WithPoint(whole + fraction, |fraction|) == whole + "." + fraction
  {
    var digits := whole + fraction;
    assert digits[..|whole|] == whole && digits[|whole|..] == fraction;
  }

  /** Digits without a spare leading zero survive any narrower padding. */
  lemma Restored(digits: string, width: nat)
    requires AllDigits(digits) && 1 <= width <= |digits|
    requires digits[0] == '0' ==> width == |digits|
    ensures PadTo(Numeral(Number(digits)), width) == digits
  {
    NumeralOfNumber(digits);
  }

  lemma IntegerRoundTrip(n: nat, minimum: nat, maximum: nat)
    ensures ReadInteger(Numeral(n), minimum, maximum) == if minimum <= n <= maximum then Some(n) else None
  {
    NumberOfNumeral(n);
  }
}
