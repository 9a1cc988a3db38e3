/**
 * .NET's Math.Round(x) and Math.Round(x, 2): rounding to the nearest integer
 * (or hundredth), with a value exactly half-way going to the even neighbour.
 */
module Rounding {

  predicate IsEven(n: int) {
    n % 2 == 0
  }

  /** The integer nearest to `x`; a tie goes to the even integer. */
  function RoundHalfEven(x: real): (n: int)
    ensures -0.5 <= n as real - x <= 0.5
    ensures n as real - x == 0.5 || n as real - x == -0.5 ==> IsEven(n)
  {
    var f := x.Floor;
    var d := x - f as real;
    if d < 0.5 then f
    else if d > 0.5 then f + 1
    else if IsEven(f) then f
    else f + 1
  }

  /** The two properties of RoundHalfEven's contract single out its result. */
  lemma RoundHalfEvenUnique(x: real, n: int)
    requires -0.5 <= n as real - x <= 0.5
    requires n as real - x == 0.5 || n as real - x == -0.5 ==> IsEven(n)
    ensures n == RoundHalfEven(x)
  {
  }

  /** An integer rounds to itself. */
  lemma RoundHalfEvenOfInt(n: int)
    ensures RoundHalfEven(n as real) == n
  {
    RoundHalfEvenUnique(n as real, n);
  }

  /** Rounding never reverses the order of two values. */
  lemma RoundHalfEvenMonotone(x: real, y: real)
    requires x <= y
    ensures RoundHalfEven(x) <= RoundHalfEven(y)
  {
  }

  /**
   * Math.Round(x, 2): whole hundredths within half a hundredth of `x`; when `x`
   * lies exactly half-way, the even hundredth.
   */
  function RoundTo2(x: real): (r: real)
    ensures IsWholeCents(r)
    ensures -0.005 <= r - x <= 0.005
    ensures r - x == 0.005 || r - x == -0.005 ==> IsEven((r * 100.0).Floor)
  {
    var n := RoundHalfEven(x * 100.0);
    assert (n as real / 100.0) * 100.0 == n as real;
    n as real / 100.0
  }

  /** A whole number of hundredths. */
  predicate IsWholeCents(r: real) {
    (r * 100.0).Floor as real == r * 100.0
  }

  /** A value already in whole hundredths is left as it is. */
  lemma RoundTo2OfCents(n: int)
    ensures RoundTo2(n as real / 100.0) == n as real / 100.0
  {
    assert (n as real / 100.0) * 100.0 == n as real;
    RoundHalfEvenOfInt(n);
  }

  /** Rounding to hundredths never reverses the order of two values. */
  lemma RoundTo2Monotone(x: real, y: real)
    requires x <= y
    ensures RoundTo2(x) <= RoundTo2(y)
  {
    RoundHalfEvenMonotone(x * 100.0, y * 100.0);
  }

  /** Rounding twice is rounding once. */
  lemma RoundTo2Idempotent(x: real)
    ensures RoundTo2(RoundTo2(x)) == RoundTo2(x)
  {
    RoundTo2OfCents(RoundHalfEven(x * 100.0));
  }
}
