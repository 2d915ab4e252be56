/**
 Exact decimal arithmetic as the accounting code uses it.

 A decimal is a real number: sums, differences, products and comparisons of decimals are exact, so
 they are the operations of `real`.  Division is the only lossy operation.  As a library assumption
 it rounds the exact quotient to 16 decimal places, ties away from zero; `RoundUp` rounds away from
 zero to a given number of places.
 */
module Decimals {

  function Abs(x: real): real {
    if x < 0.0 then -x else x
  }

  // The nearest integer, ties away from zero.
  function Nearest(x: real): int {
    if x >= 0.0 then (x + 0.5).Floor else -((0.5 - x).Floor)
  }

  // The nearest integer that is not closer to zero.
  function Away(x: real): int {
    if x >= 0.0 then -((-x).Floor) else x.Floor
  }

  function Div(a: real, b: real): real
    requires b != 0.0
  {
    Nearest(a / b * 10000000000000000.0) as real / 10000000000000000.0
  }

  function RoundUp2(x: real): real {
    Away(x * 100.0) as real / 100.0
  }

  function Round4(x: real): real {
    Nearest(x * 10000.0) as real / 10000.0
  }

  function Half(a: real): real {
    Div(a, 2.0)
  }

  // The decimal with k units in the 16th decimal place.
  function Units(k: int): real {
    k as real / 10000000000000000.0
  }

  // x is a decimal with at most 16 decimal places.
  ghost predicate Places16(x: real) {
    exists k: int :: x == Units(k)
  }

  // x is a decimal with at most 15 decimal places.
  ghost predicate Places15(x: real) {
    exists k: int :: x == Units(10 * k)
  }

  lemma NearestIsWithinHalf(x: real)
    ensures -0.5 <= Nearest(x) as real - x <= 0.5
  {
  }

  // No integer is nearer than `Nearest(x)`.
  lemma NearestIsNearest(x: real, k: int)
    ensures Abs(Nearest(x) as real - x) <= Abs(k as real - x)
  {
    NearestIsWithinHalf(x);
    if k < Nearest(x) {
      assert k as real <= Nearest(x) as real - 1.0;
    } else if k > Nearest(x) {
      assert k as real >= Nearest(x) as real + 1.0;
    }
  }

  // Halfway between two integers the one farther from zero is taken.
  lemma TiesGoAway(k: int)
    requires k >= 0
    ensures Nearest(k as real + 0.5) == k + 1 && Nearest(-(k as real) - 0.5) == -(k + 1)
  {
  }

  // A quotient has at most 16 decimal places and is off by at most half a unit of the last.
  lemma DivIsNearest(a: real, b: real)
    requires b != 0.0
    ensures Places16(Div(a, b)) && Abs(Div(a, b) - a / b) <= 0.00000000000000005
  {
    var x := a / b * 10000000000000000.0;
    assert Div(a, b) == Units(Nearest(x));
    NearestIsWithinHalf(x);
  }

  // Rounding to four places is off by at most half a unit of the last.
  lemma Round4IsNearest(x: real)
    ensures (Round4(x) * 10000.0).Floor as real == Round4(x) * 10000.0
    ensures Abs(Round4(x) - x) <= 0.00005
  {
    NearestIsWithinHalf(x * 10000.0);
    assert Round4(x) == Nearest(x * 10000.0) as real / 10000.0;
  }

  lemma NearestOfInteger(k: int)
    ensures Nearest(k as real) == k
  {
  }

  // Division is exact when the quotient has at most 16 decimal places.
  lemma DivExact(a: real, b: real, k: int)
    requires b != 0.0 && a / b == Units(k)
    ensures Div(a, b) == a / b
  {
    assert a / b * 10000000000000000.0 == k as real;
    NearestOfInteger(k);
  }
}
