/**
 * Amounts as clients write them: which texts are accepted, what they are worth
 * in ten-millionths, and when two of them are the same amount.
 */
module AmountTexts {
  import opened Wrappers
  import opened Decimals
  import opened Powers
  import opened Amounts

  // === Text by its parts

  /** Digits, and after a point the fraction if there is one. */
  function Digits(whole: string, fraction: string): string {
    if fraction == "" then whole else whole + "." + fraction
  }

  ghost predicate AreDigits(whole: string, fraction: string) {
    whole != "" && AllDigits(whole) && AllDigits(fraction)
  }

  predicate IsSign(sign: string) {
    sign == "" || sign == "+"
  }

  lemma ConcatenatedDigits(a: string, b: string)
    requires AllDigits(a) && AllDigits(b)
    ensures AllDigits(a + b)
  {
  }

  lemma ParsesDigits(whole: string, fraction: string)
    requires AreDigits(whole, fraction)
    ensures AllDigits(whole + fraction)
    ensures
      var d := Decimal(Value(whole + fraction), |fraction|);
      FromDigits(Digits(whole, fraction)) == if InRange(d) then Some(d) else None
  {
    ConcatenatedDigits(whole, fraction);
    if fraction == "" {
      PointAfterDigits(whole, "");
      assert whole + "" == whole && whole[..|whole|] == whole;
    } else {
      PointAfterDigits(whole, "." + fraction);
      var body := whole + "." + fraction;
      assert body == whole + ("." + fraction);
      assert body[..|whole|] == whole && body[|whole| + 1..] == fraction;
    }
  }

  /** What a text is read as. */
  lemma ParsesText(sign: string, whole: string, fraction: string)
    requires AreDigits(whole, fraction) && IsSign(sign)
    ensures AllDigits(whole + fraction)
    ensures
      var d := Decimal(Value(whole + fraction), |fraction|);
      FromStr(sign + Digits(whole, fraction)) == if InRange(d) then Some(d) else None
  {
    var body := Digits(whole, fraction);
    ParsesDigits(whole, fraction);
    if sign == "" {
      assert sign + body == body && body[0] == whole[0] && IsDigit(whole[0]);
    } else {
      assert (sign + body)[1..] == body && (sign + body)[0] == '+';
    }
  }

  // === Positive

  ghost predicate HasNonZero(digits: string) {
    exists i :: 0 <= i < |digits| && digits[i] != '0'
  }

  lemma {:induction false} PositiveIffNonZero(digits: string)
    requires AllDigits(digits)
    ensures Value(digits) > 0 <==> HasNonZero(digits)
  {
    if digits != "" {
      var init, last := digits[..|digits| - 1], digits[|digits| - 1];
      PositiveIffNonZero(init);
      assert DigitValue(last) > 0 <==> last != '0';
      assert forall i :: 0 <= i < |init| ==> init[i] == digits[i];
      if HasNonZero(init) {
        var i :| 0 <= i < |init| && init[i] != '0';
        assert digits[i] != '0';
      }
    }
  }

  // === The texts that are accepted

  /** The text has these parts: at most seven fractional digits, at most 28 digits' worth, and not zero. */
  ghost predicate Spells(text: string, sign: string, whole: string, fraction: string) {
    && IsSign(sign) && AreDigits(whole, fraction) && |fraction| <= 7
    && text == sign + Digits(whole, fraction)
    && AllDigits(whole + fraction) && HasNonZero(whole + fraction)
    && Value(whole + fraction) < 10_000_000_000_000_000_000_000_000_000
  }

  ghost predicate IsAmountText(text: string) {
    exists sign, whole, fraction :: Spells(text, sign, whole, fraction)
  }

  lemma RangeIs(d: Decimal)
    requires 0 <= d.mantissa && d.scale <= 7
    ensures InRange(d) <==> d.mantissa < 10_000_000_000_000_000_000_000_000_000
  {
    PowersOfTen();
  }

  lemma SpelledIsValid(text: string, sign: string, whole: string, fraction: string)
    requires Spells(text, sign, whole, fraction)
    ensures Valid(text) && FromStr(text) == Some(Decimal(Value(whole + fraction), |fraction|))
  {
    ParsesText(sign, whole, fraction);
    RangeIs(Decimal(Value(whole + fraction), |fraction|));
    PositiveIffNonZero(whole + fraction);
  }

  /** The parts of digits that parse. */
  lemma PartsOfDigits(body: string) returns (whole: string, fraction: string)
    requires FromDigits(body).Some?
    ensures AreDigits(whole, fraction) && body == Digits(whole, fraction) && AllDigits(whole + fraction)
    ensures FromDigits(body).value == Decimal(Value(whole + fraction), |fraction|)
  {
    var k := PointAt(body);
    whole := body[..k];
    fraction := if k < |body| then body[k + 1..] else "";
    assert body == whole + body[k..];
    if k < |body| {
      assert body[k..] == "." + fraction;
    }
    ParsesDigits(whole, fraction);
  }

  lemma ValidIsSpelled(text: string)
    requires Valid(text)
    ensures IsAmountText(text)
  {
    assert text != "";
    var sign, body := "", text;
    if text[0] == '+' {
      sign, body := "+", text[1..];
    }
    assert text == sign + body;
    var whole, fraction := PartsOfDigits(body);
    PositiveIffNonZero(whole + fraction);
    RangeIs(Decimal(Value(whole + fraction), |fraction|));
    assert Spells(text, sign, whole, fraction);
  }

  /**
   * An amount is accepted exactly when its text is digits, with a plus sign
   * or none, with at most seven digits after a point, trailing zeros or not,
   * and some digit is not zero.
   */
  lemma ValidIffAmountText(text: string)
    ensures Valid(text) <==> IsAmountText(text)
  {
    if IsAmountText(text) {
      var sign, whole, fraction :| Spells(text, sign, whole, fraction);
      SpelledIsValid(text, sign, whole, fraction);
    } else if Valid(text) {
      ValidIsSpelled(text);
    }
  }

  lemma {:induction false} ValueIsBelow(digits: string)
    requires AllDigits(digits)
    ensures Value(digits) < Pow10(|digits|)
  {
    if digits != "" {
      ValueIsBelow(digits[..|digits| - 1]);
    }
  }

  lemma {:induction false} PowersGrow(a: nat, b: nat)
    requires a <= b
    ensures Pow10(a) <= Pow10(b)
  {
    if a < b {
      PowersGrow(a, b - 1);
    }
  }

  /** Whatever the client writes in up to 28 digits, seven of them after the point, is accepted unless it is zero. */
  lemma ShortTextIsAmount(text: string, sign: string, whole: string, fraction: string)
    requires IsSign(sign) && AreDigits(whole, fraction) && text == sign + Digits(whole, fraction)
    requires |fraction| <= 7 && |whole| + |fraction| <= 28 && HasNonZero(whole + fraction)
    ensures Valid(text) && Spells(text, sign, whole, fraction)
  {
    ConcatenatedDigits(whole, fraction);
    ValueIsBelow(whole + fraction);
    PowersGrow(|whole + fraction|, MAX_DIGITS);
    PowersOfTen();
    SpelledIsValid(text, sign, whole, fraction);
  }

  /** So a minus sign, zero, and an eighth fractional digit are each refused. */
  lemma RefusedTexts(text: string, sign: string, whole: string, fraction: string)
    ensures text != "" && text[0] == '-' ==> !Valid(text)
    ensures
      && text == sign + Digits(whole, fraction) && IsSign(sign) && AreDigits(whole, fraction)
      && (|fraction| >= 8 || !HasNonZero(whole + fraction))
      ==> !Valid(text)
  {
    if IsSign(sign) && AreDigits(whole, fraction) {
      ParsesText(sign, whole, fraction);
      PositiveIffNonZero(whole + fraction);
    }
  }

  // === Their worth

  function Zeros(n: nat): (s: string)
    ensures |s| == n && AllDigits(s)
  {
    if n == 0 then "" else Zeros(n - 1) + "0"
  }

  lemma {:induction false} ZerosAreZero(n: nat)
    ensures Value(Zeros(n)) == 0
  {
    if n > 0 {
      ZerosAreZero(n - 1);
      assert Zeros(n)[..n - 1] == Zeros(n - 1);
    }
  }

  /** The digits with the fraction filled up to seven places: the amount in ten-millionths. */
  function Padded(whole: string, fraction: string): (digits: string)
    requires |fraction| <= 7
  {
    whole + fraction + Zeros(7 - |fraction|)
  }

  lemma PaddedIsUnits(whole: string, fraction: string)
    requires AreDigits(whole, fraction) && |fraction| <= 7
    ensures AllDigits(whole + fraction) && AllDigits(Padded(whole, fraction))
    ensures Units(Decimal(Value(whole + fraction), |fraction|)) == Value(Padded(whole, fraction))
  {
    ConcatenatedDigits(whole, fraction);
    ValueOfConcat(whole + fraction, Zeros(7 - |fraction|));
    ZerosAreZero(7 - |fraction|);
  }

  /** Two accepted texts are the same amount exactly when their digits to seven places are the same number. */
  lemma MatchIffSameDigits(
    a: string, signA: string, wholeA: string, fractionA: string,
    b: string, signB: string, wholeB: string, fractionB: string)
    requires Spells(a, signA, wholeA, fractionA) && Spells(b, signB, wholeB, fractionB)
    ensures AllDigits(Padded(wholeA, fractionA)) && AllDigits(Padded(wholeB, fractionB))
    ensures AmountsMatch(a, b) <==> Value(Padded(wholeA, fractionA)) == Value(Padded(wholeB, fractionB))
  {
    SpelledIsValid(a, signA, wholeA, fractionA);
    SpelledIsValid(b, signB, wholeB, fractionB);
    PaddedIsUnits(wholeA, fractionA);
    PaddedIsUnits(wholeB, fractionB);
    EqualIffSameUnits(FromStr(a).value, FromStr(b).value);
  }

  /** The column stores that number, as long as it is below 10^20: the amount is below 10^13. */
  lemma StoredAsDigits(text: string, sign: string, whole: string, fraction: string)
    requires Spells(text, sign, whole, fraction)
    ensures AllDigits(Padded(whole, fraction)) && FromStr(text).Some?
    ensures
      var units := Value(Padded(whole, fraction));
      Store(FromStr(text).value) == if units < 100_000_000_000_000_000_000 then Some(units) else None
  {
    SpelledIsValid(text, sign, whole, fraction);
    PaddedIsUnits(whole, fraction);
    PowersOfTen();
  }

  lemma {:induction false} ZerosSplit(a: nat, b: nat)
    ensures Zeros(a + b) == Zeros(a) + Zeros(b)
  {
    if b > 0 {
      ZerosSplit(a, b - 1);
    }
  }

  lemma PaddedWithZeros(whole: string, n: nat)
    requires n <= 7
    ensures Padded(whole, "") == Padded(whole, Zeros(n))
  {
    ZerosSplit(n, 7 - n);
    assert whole + "" == whole;
    assert whole + (Zeros(n) + Zeros(7 - n)) == whole + Zeros(n) + Zeros(7 - n);
  }

  /** So writing out zeros never makes a difference. */
  lemma TrailingZerosMatch(a: string, b: string, whole: string, n: nat)
    requires n <= 7 && Spells(a, "", whole, "") && Spells(b, "", whole, Zeros(n))
    ensures AmountsMatch(a, b)
  {
    MatchIffSameDigits(a, "", whole, "", b, "", whole, Zeros(n));
    PaddedWithZeros(whole, n);
  }

  lemma SevenZeros()
    ensures Zeros(7) == "0000000"
  {
    assert Zeros(1) == "0" && Zeros(2) == "00" && Zeros(3) == "000" && Zeros(4) == "0000";
    assert Zeros(5) == "00000" && Zeros(6) == "000000";
  }

  lemma TenInBothForms()
    ensures Valid("10") && Valid("10.0000000") && AmountsMatch("10", "10.0000000")
  {
    SevenZeros();
    assert "" + Digits("10", "") == "10" && "" + Digits("10", Zeros(7)) == "10.0000000";
    assert ("10" + "")[0] == '1' && ("10" + Zeros(7))[0] == '1';
    ShortTextIsAmount("10", "", "10", "");
    ShortTextIsAmount("10.0000000", "", "10", Zeros(7));
    TrailingZerosMatch("10", "10.0000000", "10", 7);
  }

  lemma TenAndAHalf()
    ensures Valid("10.5000000")
  {
    assert "" + Digits("10", "5000000") == "10.5000000" && ("10" + "5000000")[0] == '1';
    ShortTextIsAmount("10.5000000", "", "10", "5000000");
  }

  lemma NotAmounts()
    ensures !Valid("0") && !Valid("-1") && !Valid("1.12345678")
  {
    assert "" + Digits("0", "") == "0" && "0" + "" == "0";
    assert "" + Digits("1", "12345678") == "1.12345678";
    RefusedTexts("0", "", "0", "");
    RefusedTexts("-1", "", "0", "");
    RefusedTexts("1.12345678", "", "1", "12345678");
  }
}
