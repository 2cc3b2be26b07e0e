/** Arithmetic shared by the models: Python's `int()` on a float, which
    truncates toward zero, and the sum and mean of a list of floats, here
    taken over exact reals. */
module Numeric {

  /** `int(x)` for a float `x`: the integer part, rounded toward zero. */
  function Trunc(x: real): (r: int)
    ensures 0.0 <= x ==> 0 <= r && r as real <= x < r as real + 1.0
    ensures x < 0.0 ==> r <= 0 && r as real - 1.0 < x <= r as real
  {
    if 0.0 <= x then x.Floor else -((-x).Floor)
  }

  /** Truncation is an odd function: it commutes with negation, which is
      what makes it differ from `Floor` on negative values. */
  lemma TruncOdd(x: real)
    ensures Trunc(-x) == -Trunc(x)
  {
    if x == 0.0 {
    } else if 0.0 < x {
      assert Trunc(-x) == -(x.Floor);
    } else {
      assert Trunc(x) == -((-x).Floor);
    }
  }

  /** Truncation never reverses order. */
  lemma TruncMonotone(x: real, y: real)
    requires x <= y
    ensures Trunc(x) <= Trunc(y)
  {
    if 0.0 <= x {
      assert x.Floor <= y.Floor;
    } else if y < 0.0 {
      assert (-y).Floor <= (-x).Floor;
    }
  }

  /** `sum(xs)`, added from the left. */
  function Sum(xs: seq<real>): real
  {
    if xs == [] then 0.0 else Sum(xs[..|xs| - 1]) + xs[|xs| - 1]
  }

  /** `statistics.mean(xs)` over exact reals. */
  function Mean(xs: seq<real>): real
    requires |xs| > 0
  {
    Sum(xs) / |xs| as real
  }

  lemma {:induction false} SumBounds(xs: seq<real>, lo: real, hi: real)
    requires forall i :: 0 <= i < |xs| ==> lo <= xs[i] <= hi
    ensures |xs| as real * lo <= Sum(xs) <= |xs| as real * hi
  {
    if xs != [] {
      var init := xs[..|xs| - 1];
      assert forall i :: 0 <= i < |init| ==> init[i] == xs[i];
      SumBounds(init, lo, hi);
      assert |xs| as real * lo == |init| as real * lo + lo;
      assert |xs| as real * hi == |init| as real * hi + hi;
    }
  }

  /** The mean of values that all lie in `[lo, hi]` lies in `[lo, hi]`. */
  lemma MeanBounds(xs: seq<real>, lo: real, hi: real)
    requires |xs| > 0
    requires forall i :: 0 <= i < |xs| ==> lo <= xs[i] <= hi
    ensures lo <= Mean(xs) <= hi
  {
    SumBounds(xs, lo, hi);
    var n := |xs| as real;
    assert n * lo <= Sum(xs) <= n * hi;
    assert lo == (n * lo) / n;
    assert hi == (n * hi) / n;
  }

  /** Positions of a smallest and a largest value. */
  lemma {:induction false} Extremes(xs: seq<real>) returns (lo: nat, hi: nat)
    requires |xs| > 0
    ensures lo < |xs| && hi < |xs|
    ensures forall k :: 0 <= k < |xs| ==> xs[lo] <= xs[k] <= xs[hi]
  {
    if |xs| == 1 {
      return 0, 0;
    }
    var init := xs[..|xs| - 1];
    lo, hi := Extremes(init);
    assert forall k :: 0 <= k < |init| ==> init[k] == xs[k];
    if xs[|xs| - 1] < xs[lo] {
      lo := |xs| - 1;
    }
    if xs[|xs| - 1] > xs[hi] {
      hi := |xs| - 1;
    }
  }

  /** The mean lies between the smallest and the largest value averaged. */
  lemma MeanBetweenExtremes(xs: seq<real>)
    requires |xs| > 0
    ensures exists i, j :: 0 <= i < |xs| && 0 <= j < |xs| && xs[i] <= Mean(xs) <= xs[j]
  {
    var lo, hi := Extremes(xs);
    MeanBounds(xs, xs[lo], xs[hi]);
  }
}
