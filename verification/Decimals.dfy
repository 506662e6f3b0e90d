/**
 * The decimal type the payment code relies on: a signed integer mantissa and
 * a count of fractional digits. Parsing keeps the digits as written ("10.50"
 * has scale 2), comparison is by value, and normalising strips trailing zeros.
 *
 * Text is an optional sign, digits, and optionally a point followed by
 * digits; anything else does not parse. The mantissa stays below 10^28 and
 * the scale at most 28, where the library represents the digits exactly.
 */
module Decimals {
  import opened Wrappers

  datatype Decimal = Decimal(mantissa: int, scale: nat)

  const MAX_DIGITS: nat := 28

  // === Powers of ten

  function Pow10(n: nat): (p: nat)
    ensures p > 0
  {
    if n == 0 then 1 else 10 * Pow10(n - 1)
  }

  lemma MulAssoc(x: int, y: int, z: int)
    ensures (x * y) * z == x * (y * z)
  {
  }

  lemma {:induction false} Pow10Sum(a: nat, b: nat)
    ensures Pow10(a + b) == Pow10(a) * Pow10(b)
  {
    if a > 0 {
      Pow10Sum(a - 1, b);
      assert Pow10(a + b) == 10 * Pow10(a - 1 + b);
      MulAssoc(10, Pow10(a - 1), Pow10(b));
    }
  }

  lemma MulSwap(x: int, y: int, z: int)
    ensures (x * y) * z == (x * z) * y
  {
    MulAssoc(x, y, z);
    MulAssoc(x, z, y);
  }

  lemma MulCancel(x: int, y: int, z: int)
    requires z != 0 && x * z == y * z
    ensures x == y
  {
  }

  // === Digits

  predicate IsDigit(c: char) {
    '0' <= c <= '9'
  }

  predicate AllDigits(s: string) {
    forall i :: 0 <= i < |s| ==> IsDigit(s[i])
  }

  function DigitValue(c: char): (v: nat)
    requires IsDigit(c)
    ensures v < 10
  {
    (c as int) - ('0' as int)
  }

  function DigitChar(v: nat): (c: char)
    requires v < 10
    ensures IsDigit(c) && DigitValue(c) == v
  {
    ('0' as int + v) as char
  }

  /** The number a string of digits denotes. */
  function Value(s: string): nat
    requires AllDigits(s)
  {
    if s == "" then 0 else 10 * Value(s[..|s| - 1]) + DigitValue(s[|s| - 1])
  }

  lemma {:induction false} ValueOfConcat(a: string, b: string)
    requires AllDigits(a) && AllDigits(b)
    ensures AllDigits(a + b)
    ensures Value(a + b) == Value(a) * Pow10(|b|) + Value(b)
  {
    if b == "" {
      assert a + b == a;
    } else {
      var init := b[..|b| - 1];
      ValueOfConcat(a, init);
      assert (a + b)[..|a + b| - 1] == a + init;
      assert Value(a + b) == 10 * (Value(a) * Pow10(|init|) + Value(init)) + DigitValue(b[|b| - 1]);
      MulAssoc(Value(a), Pow10(|init|), 10);
    }
  }

  // === Parsing

  /** The index of the first point in `s`, or its length when there is none. */
  function PointAt(s: string): (k: nat)
    ensures k <= |s|
    ensures k < |s| ==> s[k] == '.'
    ensures forall i :: 0 <= i < k ==> s[i] != '.'
  {
    if s == "" || s[0] == '.' then 0 else 1 + PointAt(s[1..])
  }

  function Size(d: Decimal): nat {
    if d.mantissa < 0 then -d.mantissa else d.mantissa
  }

  /** The digits fit the library's exact range. */
  predicate InRange(d: Decimal) {
    Size(d) < Pow10(MAX_DIGITS) && d.scale <= MAX_DIGITS
  }

  function FromDigits(body: string): (r: Option<Decimal>)
    ensures r.Some? ==> InRange(r.value) && r.value.mantissa >= 0
  {
    var k := PointAt(body);
    var whole := body[..k];
    var fraction := if k < |body| then body[k + 1..] else "";
    if whole == "" || (k < |body| && fraction == "") || !AllDigits(whole) || !AllDigits(fraction) then
      None
    else
      assert AllDigits(whole + fraction);
      var d := Decimal(Value(whole + fraction), |fraction|);
      if InRange(d) then Some(d) else None
  }

  function FromStr(text: string): (r: Option<Decimal>)
    ensures r.Some? ==> InRange(r.value)
  {
    if text != "" && text[0] == '-' then
      match FromDigits(text[1..])
      case None => None
      case Some(d) => Some(Decimal(-d.mantissa, d.scale))
    else if text != "" && text[0] == '+' then
      FromDigits(text[1..])
    else
      FromDigits(text)
  }

  // === Comparison by value

  predicate Equal(a: Decimal, b: Decimal) {
    a.mantissa * Pow10(b.scale) == b.mantissa * Pow10(a.scale)
  }

  lemma EqualTransitive(a: Decimal, b: Decimal, c: Decimal)
    requires Equal(a, b) && Equal(b, c)
    ensures Equal(a, c)
  {
    var pa, pb, pc := Pow10(a.scale), Pow10(b.scale), Pow10(c.scale);
    MulSwap(a.mantissa, pc, pb);
    MulSwap(b.mantissa, pa, pc);
    MulSwap(c.mantissa, pb, pa);
    MulCancel(a.mantissa * pc, c.mantissa * pa, pb);
  }

  // === Normal form

  predicate IsNormal(d: Decimal) {
    d.scale == 0 || d.mantissa % 10 != 0
  }

  /** Strips trailing fractional zeros. */
  function Normalize(d: Decimal): (n: Decimal)
    ensures IsNormal(n) && n.scale <= d.scale
    ensures InRange(d) ==> InRange(n)
    ensures d.mantissa > 0 <==> n.mantissa > 0
    ensures d.mantissa < 0 <==> n.mantissa < 0
    decreases d.scale
  {
    if IsNormal(d) then d else Normalize(Decimal(d.mantissa / 10, d.scale - 1))
  }

  lemma {:induction false} NormalizeKeepsValue(d: Decimal)
    ensures Equal(d, Normalize(d))
    decreases d.scale
  {
    if !IsNormal(d) {
      var shorter := Decimal(d.mantissa / 10, d.scale - 1);
      NormalizeKeepsValue(shorter);
      assert d.mantissa == 10 * shorter.mantissa;
      MulAssoc(10, shorter.mantissa, Pow10(shorter.scale));
      MulAssoc(shorter.mantissa, 10, Pow10(shorter.scale));
      assert Equal(d, shorter);
      EqualTransitive(d, shorter, Normalize(d));
    }
  }

  lemma ShorterScaleMeansTrailingZero(a: Decimal, b: Decimal)
    requires a.scale < b.scale && Equal(a, b)
    ensures b.mantissa % 10 == 0
  {
    var gap := b.scale - a.scale;
    Pow10Sum(gap, a.scale);
    MulAssoc(a.mantissa, Pow10(gap), Pow10(a.scale));
    MulCancel(a.mantissa * Pow10(gap), b.mantissa, Pow10(a.scale));
    MulAssoc(10, a.mantissa, Pow10(gap - 1));
    MulAssoc(a.mantissa, 10, Pow10(gap - 1));
    assert b.mantissa == 10 * (a.mantissa * Pow10(gap - 1));
  }

  /** Two normal decimals of equal value are the same digits at the same scale. */
  lemma NormalFormUnique(a: Decimal, b: Decimal)
    requires IsNormal(a) && IsNormal(b) && Equal(a, b)
    ensures a == b
  {
    if a.scale < b.scale {
      ShorterScaleMeansTrailingZero(a, b);
    } else if b.scale < a.scale {
      ShorterScaleMeansTrailingZero(b, a);
    } else {
      MulCancel(a.mantissa, b.mantissa, Pow10(a.scale));
    }
  }

  // === Printing

  function PrintNat(n: nat): string {
    if n < 10 then [DigitChar(n)] else PrintNat(n / 10) + [DigitChar(n % 10)]
  }

  /** `n` in exactly `width` digits, with leading zeros. */
  function Pad(n: nat, width: nat): string {
    if width == 0 then "" else Pad(n / 10, width - 1) + [DigitChar(n % 10)]
  }

  function Quotient(n: nat, p: nat): (q: nat)
    requires p > 0
  {
    n / p
  }

  function Remainder(n: nat, p: nat): (r: nat)
    requires p > 0
    ensures r < p && n == Quotient(n, p) * p + r
  {
    n % p
  }

  function WholeDigits(d: Decimal): string {
    PrintNat(Quotient(Size(d), Pow10(d.scale)))
  }

  function FractionDigits(d: Decimal): string {
    Pad(Remainder(Size(d), Pow10(d.scale)), d.scale)
  }

  function PrintSize(d: Decimal): string {
    if d.scale == 0 then WholeDigits(d) else WholeDigits(d) + "." + FractionDigits(d)
  }

  function ToString(d: Decimal): string {
    if d.mantissa < 0 then "-" + PrintSize(d) else PrintSize(d)
  }

  lemma {:induction false} PrintNatDigits(n: nat)
    ensures PrintNat(n) != "" && AllDigits(PrintNat(n)) && Value(PrintNat(n)) == n
  {
    if n < 10 {
      assert PrintNat(n)[..0] == "";
    } else {
      PrintNatDigits(n / 10);
      assert PrintNat(n)[..|PrintNat(n)| - 1] == PrintNat(n / 10);
    }
  }

  lemma {:induction false} PadDigits(n: nat, width: nat)
    requires n < Pow10(width)
    ensures |Pad(n, width)| == width && AllDigits(Pad(n, width)) && Value(Pad(n, width)) == n
  {
    if width > 0 {
      PadDigits(n / 10, width - 1);
      assert Pad(n, width)[..width - 1] == Pad(n / 10, width - 1);
    }
  }

  lemma {:induction false} PointAfterDigits(whole: string, rest: string)
    requires AllDigits(whole) && (rest == "" || rest[0] == '.')
    ensures PointAt(whole + rest) == |whole|
  {
    if whole == "" {
      assert whole + rest == rest;
    } else {
      PointAfterDigits(whole[1..], rest);
      assert (whole + rest)[1..] == whole[1..] + rest;
    }
  }

  lemma ParsesWhole(whole: string)
    requires whole != "" && AllDigits(whole) && InRange(Decimal(Value(whole), 0))
    ensures FromDigits(whole) == Some(Decimal(Value(whole), 0))
  {
    PointAfterDigits(whole, "");
    assert whole + "" == whole && whole[..|whole|] == whole;
  }

  lemma ParsesWithPoint(whole: string, fraction: string)
    requires whole != "" && fraction != "" && AllDigits(whole) && AllDigits(fraction)
    requires InRange(Decimal(Value(whole + fraction), |fraction|))
    ensures FromDigits(whole + "." + fraction) == Some(Decimal(Value(whole + fraction), |fraction|))
  {
    var body := whole + "." + fraction;
    PointAfterDigits(whole, "." + fraction);
    assert body == whole + ("." + fraction);
    assert body[..|whole|] == whole && body[|whole| + 1..] == fraction;
  }

  lemma PrintedParts(d: Decimal)
    ensures WholeDigits(d) != "" && AllDigits(WholeDigits(d)) && AllDigits(FractionDigits(d))
    ensures |FractionDigits(d)| == d.scale
    ensures Value(WholeDigits(d) + FractionDigits(d)) == Size(d)
  {
    PrintNatDigits(Quotient(Size(d), Pow10(d.scale)));
    PadDigits(Remainder(Size(d), Pow10(d.scale)), d.scale);
    ValueOfConcat(WholeDigits(d), FractionDigits(d));
  }

  lemma FromDigitsOfPrint(d: Decimal)
    requires InRange(d)
    ensures FromDigits(PrintSize(d)) == Some(Decimal(Size(d), d.scale))
    ensures PrintSize(d) != "" && IsDigit(PrintSize(d)[0])
  {
    PrintedParts(d);
    if d.scale == 0 {
      assert WholeDigits(d) + FractionDigits(d) == WholeDigits(d);
      ParsesWhole(WholeDigits(d));
    } else {
      ParsesWithPoint(WholeDigits(d), FractionDigits(d));
    }
  }

  /** Printing then parsing gives back the very same digits and scale. */
  lemma PrintParseRoundTrip(d: Decimal)
    requires InRange(d)
    ensures FromStr(ToString(d)) == Some(d)
  {
    FromDigitsOfPrint(d);
    assert ("-" + PrintSize(d))[1..] == PrintSize(d);
  }
}
