/**
 * The exponential price curve shared by both snapshots of the game:
 * `Math.floor(costBase * Math.pow(costExp, count))`, in exact real arithmetic.
 */
module CostCurve {

  /** `base` raised to the natural power `n`. */
  function Pow(base: real, n: nat): real
  {
    if n == 0 then 1.0 else base * Pow(base, n - 1)
  }

  /** The price of the next unit when `count` units are owned. */
  function Cost(costBase: real, costExp: real, count: nat): int
  {
    (costBase * Pow(costExp, count)).Floor
  }

  lemma {:induction false} PowNonNegative(base: real, n: nat)
    requires base >= 0.0
    ensures Pow(base, n) >= 0.0
  {
    if n > 0 {
      PowNonNegative(base, n - 1);
    }
  }

  lemma {:induction false} PowAtLeastOne(base: real, n: nat)
    requires base >= 1.0
    ensures Pow(base, n) >= 1.0
  {
    if n > 0 {
      PowAtLeastOne(base, n - 1);
      assert base * Pow(base, n - 1) >= Pow(base, n - 1);
    }
  }

  lemma {:induction false} PowMonotone(base: real, m: nat, n: nat)
    requires base >= 1.0 && m <= n
    ensures Pow(base, m) <= Pow(base, n)
  {
    if m < n {
      PowMonotone(base, m, n - 1);
      PowAtLeastOne(base, n - 1);
      assert base * Pow(base, n - 1) >= Pow(base, n - 1);
    }
  }

  /** With a non-negative base and growth factor the price is never negative. */
  lemma CostNonNegative(costBase: real, costExp: real, count: nat)
    requires costBase >= 0.0 && costExp >= 0.0
    ensures Cost(costBase, costExp, count) >= 0
  {
    PowNonNegative(costExp, count);
    assert costBase * Pow(costExp, count) >= 0.0;
  }

  /** Buying the first unit costs the floor of `costBase`; an integral base is the price itself. */
  lemma CostAtZero(costBase: real, costExp: real)
    ensures Cost(costBase, costExp, 0) == costBase.Floor
    ensures costBase == costBase.Floor as real ==> Cost(costBase, costExp, 0) as real == costBase
  {
  }

  /** A growth factor of at least 1 makes the price non-decreasing in the owned count. */
  lemma CostMonotone(costBase: real, costExp: real, m: nat, n: nat)
    requires costBase >= 0.0 && costExp >= 1.0 && m <= n
    ensures Cost(costBase, costExp, m) <= Cost(costBase, costExp, n)
  {
    PowMonotone(costExp, m, n);
    assert costBase * Pow(costExp, m) <= costBase * Pow(costExp, n);
  }

  /**
   * When one step of the curve adds at least one whole coin at count 0
   * (`costBase * (costExp - 1) >= 1`), every purchase raises the price by at least 1.
   */
  lemma CostStrictlyIncreasing(costBase: real, costExp: real, count: nat)
    requires costBase >= 0.0 && costExp >= 1.0 && costBase * (costExp - 1.0) >= 1.0
    ensures Cost(costBase, costExp, count + 1) >= Cost(costBase, costExp, count) + 1
  {
    var p := Pow(costExp, count);
    PowAtLeastOne(costExp, count);
    assert Pow(costExp, count + 1) == costExp * p;
    var step := costBase * (costExp - 1.0);
    assert step * p >= step;
    assert costBase * (costExp * p) == costBase * p + step * p;
    assert costBase * Pow(costExp, count + 1) >= costBase * p + 1.0;
  }
}
