/**
 * decimal.js values as exact reals, and the one rounding the engine uses:
 * `toDecimalPlaces(2)` (and `toFixed(2)`) under decimal.js's default
 * rounding mode ROUND_HALF_UP, which rounds to the nearest hundredth and
 * breaks ties away from zero.
 */
module Decimal {

  /** y is a whole number of cents. */
  predicate IsCents(y: real) {
    (y * 100.0).Floor as real == y * 100.0
  }

  /**
   * c lies in the half-open window of width one cent that ROUND_HALF_UP maps
   * onto c: the tie (exactly half a cent away) belongs to the value farther
   * from zero.
   */
  predicate HalfUpWindow(x: real, c: real) {
    if x >= 0.0 then x - 0.005 < c <= x + 0.005
    else x - 0.005 <= c < x + 0.005
  }

  /**
   * c is x rounded half-up to cents: a cent value in x's window, which by
   * `RoundHalfUp2Unique` pins c down to `RoundHalfUp2(x)`.
   */
  predicate RoundsTo(x: real, c: real) {
    IsCents(c) && HalfUpWindow(x, c)
  }

  /** A whole number of hundredths is a cent value. */
  lemma Hundredths(n: int)
    ensures IsCents(n as real / 100.0)
  {
    assert (n as real / 100.0) * 100.0 == n as real;
  }

  /** `Decimal.toDecimalPlaces(2, ROUND_HALF_UP)`. */
  function RoundHalfUp2(x: real): (r: real)
    ensures IsCents(r)
    ensures HalfUpWindow(x, r)
    ensures x >= 0.0 ==> r >= 0.0
    ensures x <= 0.0 ==> r <= 0.0
  {
    if x >= 0.0 then
      var n := (x * 100.0 + 0.5).Floor;
      Hundredths(n);
      n as real / 100.0
    else
      var n := ((-x) * 100.0 + 0.5).Floor;
      Hundredths(-n);
      (-n) as real / 100.0
  }

  /** Two whole cent values less than a cent apart are equal. */
  lemma CentsClose(a: real, b: real)
    requires IsCents(a) && IsCents(b)
    requires -0.01 < a - b < 0.01
    ensures a == b
  {
    var m, n := (a * 100.0).Floor, (b * 100.0).Floor;
    assert (m - n) as real == a * 100.0 - b * 100.0;
    assert -1 < m - n < 1;
  }

  /** The window determines the rounded value: RoundHalfUp2 is the only cent value in it. */
  lemma RoundHalfUp2Unique(x: real, c: real)
    requires IsCents(c) && HalfUpWindow(x, c)
    ensures c == RoundHalfUp2(x)
  {
    CentsClose(c, RoundHalfUp2(x));
  }

  /** Rounding a value that is already in cents leaves it unchanged. */
  lemma RoundHalfUp2OfCents(c: real)
    requires IsCents(c)
    ensures RoundHalfUp2(c) == c
  {
    RoundHalfUp2Unique(c, c);
  }

  /** Rounding twice is rounding once. */
  lemma RoundHalfUp2Idempotent(x: real)
    ensures RoundHalfUp2(RoundHalfUp2(x)) == RoundHalfUp2(x)
  {
    RoundHalfUp2OfCents(RoundHalfUp2(x));
  }

  /** Rounding never reverses the order of two values. */
  lemma RoundHalfUp2Monotone(x: real, y: real)
    requires x <= y
    ensures RoundHalfUp2(x) <= RoundHalfUp2(y)
  {
    if 0.0 <= x {
      assert (x * 100.0 + 0.5).Floor <= (y * 100.0 + 0.5).Floor;
    } else if y < 0.0 {
      assert ((-y) * 100.0 + 0.5).Floor <= ((-x) * 100.0 + 0.5).Floor;
    }
  }

  /** Rounding commutes with negation: ties go away from zero on both sides. */
  lemma RoundHalfUp2Negate(x: real)
    ensures RoundHalfUp2(-x) == -RoundHalfUp2(x)
  {
    if x != 0.0 {
      var r := RoundHalfUp2(x);
      Hundredths(-((r * 100.0).Floor));
      assert -r == -((r * 100.0).Floor) as real / 100.0;
      RoundHalfUp2Unique(-x, -r);
    }
  }

  /** Sums and differences of cent values are cent values. */
  lemma CentsAddSub(a: real, b: real)
    requires IsCents(a) && IsCents(b)
    ensures IsCents(a + b) && IsCents(a - b)
  {
    var m, n := (a * 100.0).Floor, (b * 100.0).Floor;
    assert a == m as real / 100.0 && b == n as real / 100.0;
    Hundredths(m + n);
    Hundredths(m - n);
    assert a + b == (m + n) as real / 100.0;
    assert a - b == (m - n) as real / 100.0;
  }

  lemma ProductNonZero(x: real, y: real)
    requires x != 0.0 && y != 0.0
    ensures x * y != 0.0
  {
  }

  lemma ProductNonNegative(x: real, y: real)
    requires x >= 0.0 && y >= 0.0
    ensures x * y >= 0.0
  {
  }

  /** Division undone by multiplication. */
  lemma DivideThenMultiply(x: real, d: real)
    requires d != 0.0
    ensures x / d * d == x
  {
  }

  /**
   * `xs.reduce((acc, x) => acc.plus(f(x)), new Decimal(0))`: a left-to-right
   * decimal sum of one figure taken from each element.
   */
  function SumOf<T>(xs: seq<T>, f: T -> real): (r: real)
    ensures (forall i :: 0 <= i < |xs| ==> f(xs[i]) >= 0.0) ==> r >= 0.0
  {
    if xs == [] then 0.0 else SumOf(xs[..|xs| - 1], f) + f(xs[|xs| - 1])
  }

  lemma SumOfAppend<T>(xs: seq<T>, x: T, f: T -> real)
    ensures SumOf(xs + [x], f) == SumOf(xs, f) + f(x)
  {
    assert (xs + [x])[..|xs|] == xs;
  }

  lemma {:induction false} SumOfConcat<T>(xs: seq<T>, ys: seq<T>, f: T -> real)
    ensures SumOf(xs + ys, f) == SumOf(xs, f) + SumOf(ys, f)
    decreases |ys|
  {
    if ys == [] {
      assert xs + ys == xs;
    } else {
      var front, last := ys[..|ys| - 1], ys[|ys| - 1];
      assert ys == front + [last];
      assert xs + ys == (xs + front) + [last];
      SumOfAppend(xs + front, last, f);
      SumOfConcat(xs, front, f);
      SumOfAppend(front, last, f);
    }
  }

  /** Taking the same element out of two equal multisets leaves equal multisets. */
  lemma MultisetWithout<T>(front: seq<T>, last: T, before: seq<T>, after: seq<T>)
    requires multiset(front + [last]) == multiset(before + [last] + after)
    ensures multiset(front) == multiset(before + after)
  {
    calc {
      multiset(front) + multiset{last};
      multiset(front + [last]);
      multiset(before + [last] + after);
      multiset(before) + multiset{last} + multiset(after);
      multiset(before + after) + multiset{last};
    }
    assert multiset(front) == multiset(front) + multiset{last} - multiset{last};
    assert multiset(before + after) == multiset(before + after) + multiset{last} - multiset{last};
  }

  /** The sum does not depend on the order of the elements. */
  lemma {:induction false} SumOfPermutation<T>(xs: seq<T>, ys: seq<T>, f: T -> real)
    requires multiset(xs) == multiset(ys)
    ensures SumOf(xs, f) == SumOf(ys, f)
    decreases |xs|
  {
    if xs == [] {
      assert |ys| == |multiset(ys)| == 0;
    } else {
      var front, last := xs[..|xs| - 1], xs[|xs| - 1];
      assert xs == front + [last];
      assert last in multiset(ys);
      var j :| 0 <= j < |ys| && ys[j] == last;
      var before, after := ys[..j], ys[j + 1..];
      assert ys == before + [last] + after;
      MultisetWithout(front, last, before, after);
      SumOfPermutation(front, before + after, f);
      SumOfConcat(before + [last], after, f);
      SumOfAppend(before, last, f);
      SumOfConcat(before, after, f);
    }
  }

  /** A sum of cent values is a cent value, so rounding it to cents changes nothing. */
  lemma {:induction false} SumOfCents<T>(xs: seq<T>, f: T -> real)
    requires forall i :: 0 <= i < |xs| ==> IsCents(f(xs[i]))
    ensures IsCents(SumOf(xs, f))
  {
    if xs == [] {
      Hundredths(0);
    } else {
      SumOfCents(xs[..|xs| - 1], f);
      CentsAddSub(SumOf(xs[..|xs| - 1], f), f(xs[|xs| - 1]));
    }
  }

  /** A sum of figures each no larger than another's is no larger than its sum. */
  lemma {:induction false} SumOfMonotone<T>(xs: seq<T>, f: T -> real, g: T -> real)
    requires forall i :: 0 <= i < |xs| ==> f(xs[i]) <= g(xs[i])
    ensures SumOf(xs, f) <= SumOf(xs, g)
  {
    if xs != [] {
      SumOfMonotone(xs[..|xs| - 1], f, g);
    }
  }
}
