/**
 * The decimal helpers of the financial engine: coercion of any raw value to
 * a decimal, division that cannot fail, rounding to cents, percentages and
 * summation.
 */
module Helpers {
  import opened Js
  import opened Decimal

  /**
   * `toDecimal`: `new Decimal(value ?? 0)`, with NaN and a thrown parse
   * error both turned into 0. It never fails.
   */
  function ToDecimal(v: Value): (r: real)
    ensures v.Num? ==> r == v.x
    ensures !v.Num? ==> r == 0.0
  {
    match v
    case Num(x) => x
    case _ => 0.0
  }

  /**
   * `safeDivide(numerator, denominator, defaultValue = 0)`: the default
   * when the coerced denominator is zero, the quotient otherwise.
   */
  function SafeDivide(numerator: Value, denominator: Value, defaultValue: Value := Undefined): (r: real)
    ensures ToDecimal(denominator) == 0.0 ==> r == ToDecimal(defaultValue)
    ensures ToDecimal(denominator) != 0.0 ==> r * ToDecimal(denominator) == ToDecimal(numerator)
  {
    var den := ToDecimal(denominator);
    if den == 0.0 then ToDecimal(WithDefault(defaultValue, Num(0.0)))
    else ToDecimal(numerator) / den
  }

  /** `roundToCents`: coerce, then round half-up to two decimal places. */
  function RoundToCents(v: Value): (r: real)
    ensures IsCents(r)
    ensures HalfUpWindow(ToDecimal(v), r)
  {
    RoundHalfUp2(ToDecimal(v))
  }

  /** `toPercentage(part, whole)`: part * 100 / whole in cents, 0 for a zero whole. */
  function ToPercentage(part: Value, whole: Value): (r: real)
    ensures ToDecimal(whole) == 0.0 ==> r == 0.0
    ensures ToDecimal(whole) != 0.0 ==> r == RoundHalfUp2(ToDecimal(part) * 100.0 / ToDecimal(whole))
  {
    RoundToCents(Num(SafeDivide(Num(ToDecimal(part) * 100.0), whole)))
  }

  /** `sumValues`: a left fold adding the coerced value of each entry. */
  function SumValues(xs: seq<Value>): (r: real)
    ensures (forall i :: 0 <= i < |xs| ==> ToDecimal(xs[i]) >= 0.0) ==> r >= 0.0
  {
    if xs == [] then 0.0 else SumValues(xs[..|xs| - 1]) + ToDecimal(xs[|xs| - 1])
  }

  /** Rounding a number to cents: the nearest cent, ties away from zero. */
  lemma RoundToCentsOfNumber(x: real)
    ensures RoundToCents(Num(x)) == RoundHalfUp2(x)
    ensures IsCents(RoundToCents(Num(x))) && HalfUpWindow(x, RoundToCents(Num(x)))
  {
  }

  /** Rounding to cents a second time changes nothing. */
  lemma RoundToCentsIdempotent(v: Value)
    ensures RoundToCents(Num(RoundToCents(v))) == RoundToCents(v)
  {
    RoundHalfUp2Idempotent(ToDecimal(v));
  }

  /** Rounding to cents preserves the order of numbers. */
  lemma RoundToCentsMonotone(x: real, y: real)
    requires x <= y
    ensures RoundToCents(Num(x)) <= RoundToCents(Num(y))
  {
    RoundHalfUp2Monotone(x, y);
  }

  /** Appending an entry adds its coerced value, so a non-numeric entry adds 0. */
  lemma SumValuesAppend(xs: seq<Value>, v: Value)
    ensures SumValues([]) == 0.0
    ensures SumValues(xs + [v]) == SumValues(xs) + ToDecimal(v)
    ensures !v.Num? ==> SumValues(xs + [v]) == SumValues(xs)
  {
    assert (xs + [v])[..|xs|] == xs;
  }

  /** One more entry of a left-to-right sum. */
  lemma SumValuesStep(s: seq<Value>, k: nat)
    requires k < |s|
    ensures SumValues(s[..k + 1]) == SumValues(s[..k]) + ToDecimal(s[k])
  {
    assert s[..k + 1][..k] == s[..k];
  }

  /** sumValues is the generic decimal sum of the coerced entries. */
  lemma {:induction false} SumValuesIsSumOf(xs: seq<Value>)
    ensures SumValues(xs) == SumOf(xs, ToDecimal)
  {
    if xs != [] {
      SumValuesIsSumOf(xs[..|xs| - 1]);
    }
  }

  /** sumValues gives the same total for any reordering of its list. */
  lemma SumValuesPermutation(xs: seq<Value>, ys: seq<Value>)
    requires multiset(xs) == multiset(ys)
    ensures SumValues(xs) == SumValues(ys)
  {
    SumValuesIsSumOf(xs);
    SumValuesIsSumOf(ys);
    SumOfPermutation(xs, ys, ToDecimal);
  }
}
