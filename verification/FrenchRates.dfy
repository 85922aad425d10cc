/** The rates in force in France, recognised by how a rate is written once its trailing zeros are gone. */
module FrenchRates {
  import opened Money
  import opened DecimalText

  function DropZeros(s: string): string {
    if s != "" && s[|s| - 1] == '0' then DropZeros(s[..|s| - 1]) else s
  }

  function DropDot(s: string): string {
    if s != "" && s[|s| - 1] == '.' then s[..|s| - 1] else s
  }

  function Stripped(plain: string): string {
    if '.' in plain then DropDot(DropZeros(plain)) else plain
  }

  function StripTrailingZeros(rate: Decimal): string {
    Stripped(Format(rate))
  }

  const FRENCH_VAT_RATES := ["20", "10", "5.5", "2.1", "0"]

  predicate IsFrench(rate: Decimal) {
    StripTrailingZeros(rate) in FRENCH_VAT_RATES
  }

  // ---------------------------------------------------------------------- what stripping leaves

  lemma {:induction false} ZerosDropFromFraction(front: string, fraction: string)
    requires AllDigits(fraction)
    ensures DropZeros(front + "." + fraction) == front + "." + DropZeros(fraction)
    ensures AllDigits(DropZeros(fraction))
  {
    var s := front + "." + fraction;
    if fraction == "" {
      assert s[|s| - 1] == '.';
    } else {
      assert s[|s| - 1] == fraction[|fraction| - 1];
      if fraction[|fraction| - 1] == '0' {
        assert s[..|s| - 1] == front + "." + fraction[..|fraction| - 1];
        ZerosDropFromFraction(front, fraction[..|fraction| - 1]);
      }
    }
  }

  lemma StripFraction(front: string, fraction: string)
    requires AllDigits(fraction)
    ensures AllDigits(DropZeros(fraction))
    ensures Stripped(front + "." + fraction) == if DropZeros(fraction) == "" then front else front + "." + DropZeros(fraction)
  {
    var plain, kept := front + "." + fraction, DropZeros(fraction);
    ZerosDropFromFraction(front, fraction);
    assert plain[|front|] == '.';
    var left := front + "." + kept;
    if kept == "" {
      assert left[|left| - 1] == '.' && left[..|left| - 1] == front;
    } else {
      assert left[|left| - 1] == kept[|kept| - 1] && IsDigit(kept[|kept| - 1]);
    }
  }

  lemma WholeStays(front: string)
    requires forall k :: 0 <= k < |front| ==> front[k] != '.'
    ensures Stripped(front) == front && DropZeros("") == ""
  {}

  lemma StripSpelled(negative: bool, whole: string, fraction: string)
    requires AllDigits(whole) && AllDigits(fraction)
    ensures AllDigits(DropZeros(fraction))
    ensures Stripped(Spelled(negative, whole, fraction)) == Spelled(negative, whole, DropZeros(fraction))
  {
    var front := (if negative then "-" else "") + whole;
    hide DropZeros, Stripped;
    if fraction == "" {
      assert Spelled(negative, whole, fraction) == front;
      assert forall k :: 0 <= k < |front| ==> front[k] != '.';
      WholeStays(front);
    } else {
      StripFraction(front, fraction);
      assert Spelled(negative, whole, fraction) == front + "." + fraction;
      assert Spelled(negative, whole, DropZeros(fraction)) ==
             if DropZeros(fraction) == "" then front else front + "." + DropZeros(fraction);
    }
  }

  /** No zero at the end of the fraction. */
  predicate IsReduced(d: Decimal) {
    d.scale > 0 ==> d.value % 10 != 0
  }

  lemma NumberAppends(whole: string, front: string, last: char)
    requires AllDigits(whole) && AllDigits(front) && IsDigit(last)
    ensures AllDigits(whole + front) && AllDigits(whole + (front + [last]))
    ensures NumberOf(whole + (front + [last])) == 10 * NumberOf(whole + front) + DigitValue(last)
  {
    assert (whole + (front + [last]))[..|whole| + |front|] == whole + front;
  }

  lemma {:induction false} DroppedZerosCount(whole: string, fraction: string)
    requires AllDigits(whole) && AllDigits(fraction)
    ensures var kept := DropZeros(fraction);
            && AllDigits(whole + fraction) && AllDigits(whole + kept) && |kept| <= |fraction|
            && NumberOf(whole + fraction) == NumberOf(whole + kept) * Pow10(|fraction| - |kept|)
            && (kept != "" ==> NumberOf(whole + kept) % 10 != 0)
  {
    hide NumberOf;
    if fraction != "" {
      var front, last := fraction[..|fraction| - 1], fraction[|fraction| - 1];
      assert fraction == front + [last];
      NumberAppends(whole, front, last);
      if last == '0' {
        DroppedZerosCount(whole, front);
        var kept := DropZeros(fraction);
        assert Pow10(|fraction| - |kept|) == 10 * Pow10(|front| - |kept|);
        TenTimes(NumberOf(whole + kept), Pow10(|front| - |kept|));
      }
    }
  }

  lemma TenTimes(n: int, power: int)
    ensures 10 * (n * power) == n * (10 * power)
  {}

  lemma SignedTimes(negative: bool, n: nat, power: nat)
    ensures n * power >= 0 && Signed(negative, n * power) == Signed(negative, n) * power
  {}

  lemma KeptIsPlain(negative: bool, whole: string, fraction: string)
    requires IsPlain(negative, whole, fraction)
    ensures IsPlain(negative, whole, DropZeros(fraction))
  {
    ZerosDropFromFraction("", fraction);
    DroppedZerosCount(whole, fraction);
    hide NumberOf, DropZeros;
  }

  lemma PlainDigits(negative: bool, whole: string, fraction: string)
    requires IsPlain(negative, whole, fraction)
    ensures AllDigits(whole) && AllDigits(fraction) && AllDigits(whole + fraction)
  {
    hide NumberOf;
  }

  /** Dropping the zeros at the end of a fraction keeps the value. */
  lemma KeptParts(negative: bool, whole: string, fraction: string)
    requires AllDigits(whole) && AllDigits(fraction) && AllDigits(whole + fraction)
    ensures var kept := DropZeros(fraction);
            && AllDigits(whole + kept) && |kept| <= |fraction|
            && IsReduced(DecimalOf(negative, whole, kept))
            && DecimalOf(negative, whole, fraction) == Rescale(DecimalOf(negative, whole, kept), |fraction|)
  {
    var kept := DropZeros(fraction);
    DroppedZerosCount(whole, fraction);
    SignedTimes(negative, NumberOf(whole + kept), Pow10(|fraction| - |kept|));
    assert |fraction| == |kept| ==> Pow10(|fraction| - |kept|) == 1;
    hide NumberOf, DropZeros, AllDigits, Pow10;
  }

  lemma SpelledScale(negative: bool, whole: string, fraction: string)
    requires AllDigits(whole + fraction)
    ensures DecimalOf(negative, whole, fraction).scale == |fraction|
  {}

  /** Stripping writes the same rate without superfluous zeros. */
  lemma StripIsReduced(rate: Decimal) returns (reduced: Decimal)
    ensures StripTrailingZeros(rate) == Format(reduced) && IsReduced(reduced) && Value(reduced) == Value(rate)
  {
    var negative := rate.value < 0;
    var whole, fraction := FormatSpells(rate);
    hide NumberOf, DropZeros, Stripped, Spelled, Format, Value, DecimalOf, Rescale, IsPlain;
    PlainDigits(negative, whole, fraction);
    StripSpelled(negative, whole, fraction);
    KeptIsPlain(negative, whole, fraction);
    PlainDigits(negative, whole, DropZeros(fraction));
    KeptParts(negative, whole, fraction);
    reduced := DecimalOf(negative, whole, DropZeros(fraction));
    PlainIsFormat(negative, whole, DropZeros(fraction));
    SpelledScale(negative, whole, DropZeros(fraction));
    SpelledScale(negative, whole, fraction);
    RescaleUpIsExact(reduced, |fraction|);
  }

  lemma SameReduced(a: Decimal, b: Decimal)
    requires IsReduced(a) && IsReduced(b) && Value(a) == Value(b)
    ensures a == b
  {
    CompareIsExact(a, b);
    hide Value;
    if a.scale > b.scale {
      ScaledUpEndsInZero(b, a.scale);
    } else if b.scale > a.scale {
      ScaledUpEndsInZero(a, b.scale);
    }
  }

  lemma ScaledUpEndsInZero(d: Decimal, scale: nat)
    requires scale > d.scale
    ensures Rescale(d, scale).value % 10 == 0
  {
    TenTimes(d.value, Pow10(scale - d.scale - 1));
    assert Rescale(d, scale).value == 10 * (d.value * Pow10(scale - d.scale - 1));
  }

  const FRENCH_DECIMALS := [Decimal(20, 0), Decimal(10, 0), Decimal(55, 1), Decimal(21, 1), Decimal(0, 0)]

  lemma RatesAreWritten()
    ensures forall k :: 0 <= k < |FRENCH_DECIMALS| ==> Format(FRENCH_DECIMALS[k]) == FRENCH_VAT_RATES[k]
  {}

  lemma RatesHaveValues()
    ensures forall k :: 0 <= k < |FRENCH_DECIMALS| ==> IsReduced(FRENCH_DECIMALS[k])
    ensures Value(Decimal(20, 0)) == 20.0 && Value(Decimal(10, 0)) == 10.0 && Value(Decimal(55, 1)) == 5.5
    ensures Value(Decimal(21, 1)) == 2.1 && Value(Decimal(0, 0)) == 0.0
  {
    assert Pow10(1) == 10;
  }

  predicate HasFrenchValue(value: real) {
    value == 20.0 || value == 10.0 || value == 5.5 || value == 2.1 || value == 0.0
  }

  /** The comparison of texts is one of values: a rate is recognised at whatever scale it was typed. */
  lemma IsFrenchIff(rate: Decimal)
    ensures IsFrench(rate) <==> HasFrenchValue(Value(rate))
  {
    var reduced := StripIsReduced(rate);
    RatesHaveValues();
    hide Format, Value, StripTrailingZeros;
    RateIsAt(reduced, 0);
    RateIsAt(reduced, 1);
    RateIsAt(reduced, 2);
    RateIsAt(reduced, 3);
    RateIsAt(reduced, 4);
  }

  lemma RateIsAt(reduced: Decimal, k: nat)
    requires IsReduced(reduced) && k < |FRENCH_DECIMALS|
    ensures Format(reduced) == FRENCH_VAT_RATES[k] <==> Value(reduced) == Value(FRENCH_DECIMALS[k])
  {
    RatesAreWritten();
    RatesHaveValues();
    hide Format, Value;
    FormatParses(reduced);
    FormatParses(FRENCH_DECIMALS[k]);
    if Value(reduced) == Value(FRENCH_DECIMALS[k]) {
      SameReduced(reduced, FRENCH_DECIMALS[k]);
    }
  }

}
