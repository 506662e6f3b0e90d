/**
 * Amount validation, amount matching, and the trip an amount makes through
 * the NUMERIC(20, 7) column. Amounts travel as text; only their value counts
 * when two of them are compared.
 */
module Amounts {
  import opened Wrappers
  import opened Decimals
  import opened Powers
  import opened PaymentCore

  const FRACTION_DIGITS: nat := 7

  /** The column holds 20 digits, 7 of them fractional: 13 before the point. */
  const COLUMN_DIGITS: nat := 20

  // === Validation

  /** A positive decimal written with at most seven fractional digits. */
  function ValidateAmount(amount: string): (r: Result<Decimal, PaymentError>)
  {
    match FromStr(amount)
    case None => Err(InvalidAmount(amount))
    case Some(parsed) =>
      if parsed.mantissa <= 0 then Err(InvalidAmount(amount))
      else if parsed.scale > FRACTION_DIGITS then Err(InvalidAmount(amount))
      else Ok(parsed)
  }

  predicate Valid(amount: string) {
    ValidateAmount(amount).Ok?
  }

  // === Matching

  /** Equality of value; text that does not parse never matches. */
  predicate AmountsMatch(expected: string, actual: string) {
    match FromStr(expected)
    case None => false
    case Some(e) =>
      match FromStr(actual)
      case None => false
      case Some(a) => Equal(e, a)
  }

  // === Storage

  /** Division by a power of ten, rounding half away from zero. */
  function RoundedQuotient(n: int, p: nat): int
    requires p > 0
  {
    if n >= 0 then (n + p / 2) / p else -((-n + p / 2) / p)
  }

  /** The nearest integer; of two equally near, the one further from zero. */
  lemma RoundsToNearest(n: int, p: nat)
    requires p > 0
    ensures
      var q := RoundedQuotient(n, p);
      && 2 * (n - q * p) <= p && 2 * (q * p - n) <= p
      && (2 * (n - q * p) == p ==> n < 0) && (2 * (q * p - n) == p ==> n > 0)
  {
    var size := if n >= 0 then n else -n;
    var q := (size + p / 2) / p;
    assert q * p + (size + p / 2) % p == size + p / 2;
    assert -q * p == -(q * p);
  }

  /** A decimal as a count of 10^-7 units, rounded to the column's scale. */
  function Units(d: Decimal): int {
    if d.scale <= FRACTION_DIGITS then d.mantissa * Pow10(FRACTION_DIGITS - d.scale)
    else RoundedQuotient(d.mantissa, Pow10(d.scale - FRACTION_DIGITS))
  }

  predicate FitsColumn(units: int) {
    -units < Pow10(COLUMN_DIGITS) && units < Pow10(COLUMN_DIGITS)
  }

  /** Writing a value to the column: `None` is the numeric overflow error. */
  function Store(d: Decimal): Option<int> {
    if FitsColumn(Units(d)) then Some(Units(d)) else None
  }

  /** Reading it back: seven fractional digits, then normalised and printed. */
  function Load(units: int): string {
    ToString(Normalize(Decimal(units, FRACTION_DIGITS)))
  }

  /** The text an amount is shown as once its trailing zeros are gone. */
  function Canonical(d: Decimal): string {
    ToString(Normalize(d))
  }

  // === What storing an amount keeps

  lemma SignOfProduct(x: int, p: int)
    requires p > 0
    ensures x * p > 0 <==> x > 0
  {
  }

  lemma UnitsAreTheValue(d: Decimal)
    requires d.scale <= FRACTION_DIGITS
    ensures Equal(d, Decimal(Units(d), FRACTION_DIGITS))
    ensures d.mantissa > 0 <==> Units(d) > 0
  {
    var gap := FRACTION_DIGITS - d.scale;
    Pow10Sum(gap, d.scale);
    MulAssoc(d.mantissa, Pow10(gap), Pow10(d.scale));
    SignOfProduct(d.mantissa, Pow10(gap));
  }

  /** Values of at most seven fractional digits are equal exactly when their units are. */
  lemma EqualIffSameUnits(a: Decimal, b: Decimal)
    requires a.scale <= FRACTION_DIGITS && b.scale <= FRACTION_DIGITS
    ensures Equal(a, b) <==> Units(a) == Units(b)
  {
    UnitsAreTheValue(a);
    UnitsAreTheValue(b);
    var ua, ub := Decimal(Units(a), FRACTION_DIGITS), Decimal(Units(b), FRACTION_DIGITS);
    if Equal(a, b) {
      EqualTransitive(ua, a, b);
      EqualTransitive(ua, b, ub);
      MulCancel(Units(a), Units(b), Pow10(FRACTION_DIGITS));
    } else if Units(a) == Units(b) {
      EqualTransitive(a, ua, b);
    }
  }

  /** Values are equal exactly when they print alike once normalised. */
  lemma EqualIffSameCanonical(a: Decimal, b: Decimal)
    requires InRange(a) && InRange(b)
    ensures Equal(a, b) <==> Canonical(a) == Canonical(b)
  {
    var na, nb := Normalize(a), Normalize(b);
    NormalizeKeepsValue(a);
    NormalizeKeepsValue(b);
    PrintParseRoundTrip(na);
    PrintParseRoundTrip(nb);
    if Equal(a, b) {
      EqualTransitive(na, a, b);
      EqualTransitive(na, b, nb);
      NormalFormUnique(na, nb);
    } else if Canonical(a) == Canonical(b) {
      EqualTransitive(a, na, b);
    }
  }

  /** Matching is identity of normal text, and of seven-digit units for validated amounts. */
  lemma MatchIffSameText(expected: string, actual: string)
    ensures AmountsMatch(expected, actual) <==>
      && FromStr(expected).Some? && FromStr(actual).Some?
      && Canonical(FromStr(expected).value) == Canonical(FromStr(actual).value)
    ensures Valid(expected) && Valid(actual) ==>
      (AmountsMatch(expected, actual) <==> Units(FromStr(expected).value) == Units(FromStr(actual).value))
  {
    if FromStr(expected).Some? && FromStr(actual).Some? {
      EqualIffSameCanonical(FromStr(expected).value, FromStr(actual).value);
      if Valid(expected) && Valid(actual) {
        EqualIffSameUnits(FromStr(expected).value, FromStr(actual).value);
      }
    }
  }

  lemma ColumnIsInRange(units: int)
    requires FitsColumn(units)
    ensures InRange(Decimal(units, FRACTION_DIGITS))
  {
    Pow10Sum(COLUMN_DIGITS, 8);
    assert Pow10(8) > 1;
  }

  /** What a stored value reads back as: its own value, in normal text. */
  lemma LoadedText(units: int)
    requires FitsColumn(units)
    ensures FromStr(Load(units)) == Some(Normalize(Decimal(units, FRACTION_DIGITS)))
    ensures Equal(FromStr(Load(units)).value, Decimal(units, FRACTION_DIGITS))
    ensures Units(FromStr(Load(units)).value) == units
    ensures units > 0 ==> Valid(Load(units))
  {
    var d := Decimal(units, FRACTION_DIGITS);
    ColumnIsInRange(units);
    PrintParseRoundTrip(Normalize(d));
    NormalizeKeepsValue(d);
    EqualIffSameUnits(d, Normalize(d));
  }

  lemma CompareScaled(x: int, y: int, p: int)
    requires p > 0
    ensures x < y <==> x * p < y * p
  {
  }

  /** A validated amount is stored exactly when it is below 10^13. */
  lemma StoredIffBelowLimit(d: Decimal)
    requires d.scale <= FRACTION_DIGITS && d.mantissa > 0
    ensures Store(d).Some? <==> d.mantissa < 10_000_000_000_000 * Pow10(d.scale)
  {
    var limit := Pow10(COLUMN_DIGITS - FRACTION_DIGITS);
    var gap := FRACTION_DIGITS - d.scale;
    PowersOfTen();
    UnitsAreTheValue(d);
    Pow10Sum(COLUMN_DIGITS - FRACTION_DIGITS, FRACTION_DIGITS);
    Pow10Sum(d.scale, gap);
    MulAssoc(limit, Pow10(d.scale), Pow10(gap));
    CompareScaled(d.mantissa, limit * Pow10(d.scale), Pow10(gap));
  }

  /**
   * The text read back for a stored amount has the same value, validates
   * again, matches the amount it came from, is that amount's normal text, and
   * is stored as the same units.
   */
  lemma StorageRoundTrip(amount: string)
    requires Valid(amount) && Store(FromStr(amount).value).Some?
    ensures
      var d := FromStr(amount).value;
      var text := Load(Store(d).value);
      && Valid(text) && AmountsMatch(amount, text)
      && text == Canonical(d)
      && Store(FromStr(text).value) == Store(d)
  {
    var d := FromStr(amount).value;
    var units := Store(d).value;
    var stored := Decimal(units, FRACTION_DIGITS);
    UnitsAreTheValue(d);
    ColumnIsInRange(units);
    LoadedText(units);
    EqualTransitive(d, stored, FromStr(Load(units)).value);
    EqualIffSameCanonical(d, stored);
  }
}
