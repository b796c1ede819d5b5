/** Python 3's built-in `round(x)` with no digits argument, on exact reals: the
    nearest integer, with halves going to the even neighbour ("banker's rounding"). */
module Rounding {

  /** The rule that fixes `round(x)`: an integer at distance at most 1/2 from `x`,
      and an even one when `x` lies exactly halfway between two integers. */
  ghost predicate IsRoundHalfEven(x: real, n: int) {
    -0.5 <= n as real - x <= 0.5 &&
    ((n as real - x == 0.5 || x - n as real == 0.5) ==> n % 2 == 0)
  }

  function RoundHalfEven(x: real): (n: int)
    ensures IsRoundHalfEven(x, n)
  {
    var f := x.Floor;
    var d := x - f as real;
    if d < 0.5 then f
    else if d > 0.5 then f + 1
    else if f % 2 == 0 then f
    else f + 1
  }

  /** The rule allows exactly one integer, so `RoundHalfEven` is the only function
      meeting it. */
  lemma RoundHalfEvenUnique(x: real, m: int)
    requires IsRoundHalfEven(x, m)
    ensures m == RoundHalfEven(x)
  {
  }

  lemma RoundHalfEvenOfInt(k: int)
    ensures RoundHalfEven(k as real) == k
  {
    RoundHalfEvenUnique(k as real, k);
  }

  /** Rounding never reverses an order. */
  lemma RoundHalfEvenMonotone(x: real, y: real)
    requires x <= y
    ensures RoundHalfEven(x) <= RoundHalfEven(y)
  {
    var fx, fy := x.Floor, y.Floor;
    if fx < fy {
      assert RoundHalfEven(x) <= fx + 1 <= fy <= RoundHalfEven(y);
    }
  }

  /** Shifting by an even integer shifts the result by the same amount. */
  lemma RoundHalfEvenShift(x: real, k: int)
    requires k % 2 == 0
    ensures RoundHalfEven(x + k as real) == RoundHalfEven(x) + k
  {
    var n := RoundHalfEven(x);
    assert IsRoundHalfEven(x + k as real, n + k);
    RoundHalfEvenUnique(x + k as real, n + k);
  }

  /** Halves go to the even neighbour, whichever side it lies on. */
  lemma RoundHalfEvenExamples()
    ensures RoundHalfEven(0.5) == 0 && RoundHalfEven(1.5) == 2 && RoundHalfEven(2.5) == 2
    ensures RoundHalfEven(40.5) == 40 && RoundHalfEven(75.5) == 76 && RoundHalfEven(-0.5) == 0
  {
  }
}
