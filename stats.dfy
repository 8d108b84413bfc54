/**
 * List statistics on floats, as the governance code computes them with
 * `sum`, `len` and `abs`: sums, means, population variance and mean
 * absolute deviation.
 */
module Stats {
  import opened Wrappers

  /** `sum(xs)`. */
  function Sum(xs: seq<real>): real {
    if |xs| == 0 then 0.0 else Sum(xs[..|xs| - 1]) + xs[|xs| - 1]
  }

  /** The arithmetic mean, and 0 for an empty list (`_mean`, `np.mean(xs) if xs else 0.0`). */
  function Mean(xs: seq<real>): real {
    if |xs| == 0 then 0.0 else Sum(xs) / (|xs| as real)
  }

  /** `_var(xs)`: the population variance, and 0 for an empty list. */
  function Var(xs: seq<real>): real {
    if |xs| == 0 then 0.0
    else
      Sum(Squares(xs, Mean(xs))) / (|xs| as real)
  }

  /** `(x - c) ** 2` for every `x` of the list. */
  function Squares(xs: seq<real>, c: real): (d: seq<real>)
    ensures |d| == |xs| && forall i :: 0 <= i < |xs| ==> d[i] == (xs[i] - c) * (xs[i] - c)
  {
    seq(|xs|, i requires 0 <= i < |xs| => (xs[i] - c) * (xs[i] - c))
  }

  lemma SquareNonNegative(x: real)
    ensures x * x >= 0.0
  {
    if x < 0.0 {
      assert x * x == (-x) * (-x);
    }
  }

  /** `abs(x)`. */
  function Abs(x: real): (r: real)
    ensures r >= 0.0 && (r == x || r == -x)
  {
    if x < 0.0 then -x else x
  }

  /** A sum of terms that all lie in `[lo, hi]` lies in `[n·lo, n·hi]`. */
  lemma {:induction false} SumBounds(xs: seq<real>, lo: real, hi: real)
    requires forall i :: 0 <= i < |xs| ==> lo <= xs[i] <= hi
    ensures (|xs| as real) * lo <= Sum(xs) <= (|xs| as real) * hi
  {
    if |xs| > 0 {
      SumBounds(xs[..|xs| - 1], lo, hi);
    }
  }

  /** The sum of non-negative terms is non-negative, and zero only when every term is. */
  lemma {:induction false} SumNonNegative(xs: seq<real>)
    requires forall i :: 0 <= i < |xs| ==> xs[i] >= 0.0
    ensures Sum(xs) >= 0.0
    ensures Sum(xs) == 0.0 ==> forall i :: 0 <= i < |xs| ==> xs[i] == 0.0
  {
    if |xs| > 0 {
      var init := xs[..|xs| - 1];
      SumNonNegative(init);
      assert forall i :: 0 <= i < |init| ==> init[i] == xs[i];
    }
  }

  /** The sum of `n` copies of `c` is `n·c`. */
  lemma SumOfConstant(xs: seq<real>, c: real)
    requires forall i :: 0 <= i < |xs| ==> xs[i] == c
    ensures Sum(xs) == (|xs| as real) * c
  {
    SumBounds(xs, c, c);
  }

  lemma DivideMonotone(a: real, b: real, n: real)
    requires n > 0.0 && a <= b
    ensures a / n <= b / n
  {
    assert b / n - a / n == (b - a) / n;
  }

  /** The mean lies between any lower and upper bound of the list; the empty list gives 0. */
  lemma MeanBounds(xs: seq<real>, lo: real, hi: real)
    requires forall i :: 0 <= i < |xs| ==> lo <= xs[i] <= hi
    ensures |xs| > 0 ==> lo <= Mean(xs) <= hi
    ensures |xs| == 0 ==> Mean(xs) == 0.0
  {
    if |xs| > 0 {
      SumBounds(xs, lo, hi);
      var n := |xs| as real;
      DivideMonotone(n * lo, Sum(xs), n);
      DivideMonotone(Sum(xs), n * hi, n);
      assert (n * lo) / n == lo && (n * hi) / n == hi;
    }
  }

  /** The largest element of a non-empty list. */
  function Largest(xs: seq<real>): (m: real)
    requires |xs| > 0
    ensures forall i :: 0 <= i < |xs| ==> xs[i] <= m
  {
    if |xs| == 1 then xs[0]
    else
      var rest := Largest(xs[1..]);
      assert forall i :: 1 <= i < |xs| ==> xs[i] == xs[1..][i - 1];
      if xs[0] > rest then xs[0] else rest
  }

  /** The mean of a non-empty list is at least any lower bound of its elements. */
  lemma MeanAtLeast(xs: seq<real>, lo: real)
    requires |xs| > 0 && forall i :: 0 <= i < |xs| ==> lo <= xs[i]
    ensures Mean(xs) >= lo
  {
    MeanBounds(xs, lo, Largest(xs));
  }

  /** The variance is never negative, and the empty list has variance 0. */
  lemma VarNonNegative(xs: seq<real>)
    ensures Var(xs) >= 0.0
    ensures |xs| == 0 ==> Var(xs) == 0.0
  {
    if |xs| > 0 {
      var sq := Squares(xs, Mean(xs));
      forall i | 0 <= i < |sq|
        ensures sq[i] >= 0.0
      {
        SquareNonNegative(xs[i] - Mean(xs));
      }
      SumNonNegative(sq);
      DivideByCount(Sum(sq), |xs| as real);
    }
  }

  /** `abs(x - c)` for every `x` of the list. */
  function Deviations(xs: seq<real>, c: real): (d: seq<real>)
    ensures |d| == |xs| && forall i :: 0 <= i < |xs| ==> d[i] == Abs(xs[i] - c)
  {
    seq(|xs|, i requires 0 <= i < |xs| => Abs(xs[i] - c))
  }

  /**
   * The mean absolute deviation `sum(abs(x - mean) for x in xs) / len(xs)`,
   * with Python's `ZeroDivisionError` on an empty list.
   */
  function MeanAbsDeviation(xs: seq<real>): Result<real> {
    if |xs| == 0 then Raise(ZeroDivisionError)
    else
      var mean := Sum(xs) / (|xs| as real);
      Ok(Sum(Deviations(xs, mean)) / (|xs| as real))
  }

  /** Dividing by a positive count keeps the sign, and zero only comes from zero. */
  lemma DivideByCount(a: real, n: real)
    requires n > 0.0
    ensures a >= 0.0 ==> a / n >= 0.0
    ensures a / n == 0.0 <==> a == 0.0
  {
    assert (a / n) * n == a;
  }

  /** A list of equal values has that value as its mean-by-division. */
  lemma ConstantMean(xs: seq<real>)
    requires |xs| > 0 && forall i :: 0 <= i < |xs| ==> xs[i] == xs[0]
    ensures Sum(xs) / (|xs| as real) == xs[0]
  {
    SumOfConstant(xs, xs[0]);
  }

  /**
   * The deviation is defined exactly for non-empty lists, is never negative,
   * and is zero exactly when all the values are equal.
   */
  lemma MeanAbsDeviationZeroIffEqual(xs: seq<real>)
    ensures MeanAbsDeviation(xs).Raise? <==> |xs| == 0
    ensures MeanAbsDeviation(xs).Ok? ==> MeanAbsDeviation(xs).value >= 0.0
    ensures MeanAbsDeviation(xs).Ok? ==>
              (MeanAbsDeviation(xs).value == 0.0 <==> forall i, j :: 0 <= i < |xs| && 0 <= j < |xs| ==> xs[i] == xs[j])
  {
    if |xs| > 0 {
      var n := |xs| as real;
      var mean := Sum(xs) / n;
      var dev := Deviations(xs, mean);
      SumNonNegative(dev);
      DivideByCount(Sum(dev), n);
      if Sum(dev) == 0.0 {
        forall i, j | 0 <= i < |xs| && 0 <= j < |xs|
          ensures xs[i] == xs[j]
        {
          assert dev[i] == 0.0 && dev[j] == 0.0;
        }
      }
      if forall i, j :: 0 <= i < |xs| && 0 <= j < |xs| ==> xs[i] == xs[j] {
        assert forall i :: 0 <= i < |xs| ==> xs[i] == xs[0];
        ConstantMean(xs);
        SumOfConstant(dev, 0.0);
      }
    }
  }
}
