/**
 * OS2, the structural metrics layer: the mean triangle closure, a meso
 * proxy `H`, the weighted-degree asymmetry and their combination `S` over
 * the core block of a graph, and the threshold decision on `S`.
 */
module Os2 {
  import opened Wrappers
  import opened Stats
  import opened Matrix

  /** The defaults of `compute_metrics_core_fixed` and `decision_act_hold`. */
  const DefaultAlpha: real := 1.0
  const DefaultBeta: real := 1.0
  const DefaultGamma: real := 0.5
  const DefaultThetaS: real := 0.25
  /** `triangle_mean`'s default threshold, the one the core-fixed metrics use. */
  const DefaultTheta: real := 0.0

  datatype Metrics = Metrics(tMean: real, hScore: real, aScore: real, s: real)

  /** The closure score of triple `(i, j, k)`. */
  function Closure(w: Mat, i: int, j: int, k: int): real
    requires Square(w) && 0 <= i < |w| && 0 <= j < |w| && 0 <= k < |w|
  {
    (w[i][j] + w[j][k] + w[k][i]) / 3.0
  }

  /** The scores of `(i, j, k)` with `j < k < kEnd` that reach `theta`, by increasing `k`. */
  function ScoresWith(w: Mat, theta: real, i: int, j: int, kEnd: int): seq<real>
    requires Square(w) && 0 <= i < j < |w| && kEnd <= |w|
    decreases kEnd
  {
    if kEnd <= j + 1 then []
    else
      ScoresWith(w, theta, i, j, kEnd - 1) +
      (if Closure(w, i, j, kEnd - 1) >= theta then [Closure(w, i, j, kEnd - 1)] else [])
  }

  /** The scores of `(i, j, k)` with `i < j < jEnd` that reach `theta`. */
  function ScoresFrom(w: Mat, theta: real, i: int, jEnd: int): seq<real>
    requires Square(w) && 0 <= i < |w| && jEnd <= |w|
    decreases jEnd
  {
    if jEnd <= i + 1 then []
    else ScoresFrom(w, theta, i, jEnd - 1) + ScoresWith(w, theta, i, jEnd - 1, |w|)
  }

  /** The scores of the triples `i < j < k` with `i < iEnd` that reach `theta`, in loop order. */
  function ScoresBelow(w: Mat, theta: real, iEnd: int): seq<real>
    requires Square(w) && iEnd <= |w|
    decreases iEnd
  {
    if iEnd <= 0 then []
    else ScoresBelow(w, theta, iEnd - 1) + ScoresFrom(w, theta, iEnd - 1, |w|)
  }

  /** The list `triangles` that `triangle_mean` collects. */
  function Triangles(w: Mat, theta: real): seq<real>
    requires Square(w)
  {
    ScoresBelow(w, theta, |w|)
  }

  /** Every collected score with `k < kEnd` comes from a triple `(i, j, k)` that reaches `theta`. */
  lemma {:induction false} ScoresWithWitness(w: Mat, theta: real, i: int, j: int, kEnd: int, x: real) returns (k: int)
    requires Square(w) && 0 <= i < j < |w| && kEnd <= |w| && x in ScoresWith(w, theta, i, j, kEnd)
    ensures j < k < kEnd && Closure(w, i, j, k) == x && x >= theta
    decreases kEnd
  {
    if kEnd > j + 1 {
      var last := if Closure(w, i, j, kEnd - 1) >= theta then [Closure(w, i, j, kEnd - 1)] else [];
      assert ScoresWith(w, theta, i, j, kEnd) == ScoresWith(w, theta, i, j, kEnd - 1) + last;
      if x in ScoresWith(w, theta, i, j, kEnd - 1) {
        k := ScoresWithWitness(w, theta, i, j, kEnd - 1, x);
      } else {
        k := kEnd - 1;
      }
    } else {
      assert false;
    }
  }

  /** Every triple `(i, j, k)` with `k < kEnd` that reaches `theta` has its score collected. */
  lemma {:induction false} ScoresWithHas(w: Mat, theta: real, i: int, j: int, kEnd: int, k: int)
    requires Square(w) && 0 <= i < j < k < kEnd <= |w| && Closure(w, i, j, k) >= theta
    ensures Closure(w, i, j, k) in ScoresWith(w, theta, i, j, kEnd)
    decreases kEnd
  {
    var last := if Closure(w, i, j, kEnd - 1) >= theta then [Closure(w, i, j, kEnd - 1)] else [];
    assert ScoresWith(w, theta, i, j, kEnd) == ScoresWith(w, theta, i, j, kEnd - 1) + last;
    if k < kEnd - 1 {
      ScoresWithHas(w, theta, i, j, kEnd - 1, k);
    }
  }

  /** Every collected score with `j < jEnd` comes from a triple `(i, j, k)` that reaches `theta`. */
  lemma {:induction false} ScoresFromWitness(w: Mat, theta: real, i: int, jEnd: int, x: real) returns (j: int, k: int)
    requires Square(w) && 0 <= i < |w| && jEnd <= |w| && x in ScoresFrom(w, theta, i, jEnd)
    ensures i < j < jEnd && j < k < |w| && Closure(w, i, j, k) == x && x >= theta
    decreases jEnd
  {
    var earlier := FromParts(w, theta, i, jEnd, x);
    if earlier {
      j, k := ScoresFromWitness(w, theta, i, jEnd - 1, x);
    } else {
      k := ScoresWithWitness(w, theta, i, jEnd - 1, |w|, x);
      j := jEnd - 1;
    }
  }

  /** Every triple `(i, j, k)` with `j < jEnd` that reaches `theta` has its score collected. */
  lemma {:induction false} ScoresFromHas(w: Mat, theta: real, i: int, jEnd: int, j: int, k: int)
    requires Square(w) && 0 <= i < j < jEnd <= |w| && j < k < |w| && Closure(w, i, j, k) >= theta
    ensures Closure(w, i, j, k) in ScoresFrom(w, theta, i, jEnd)
    decreases jEnd
  {
    if j < jEnd - 1 {
      ScoresFromHas(w, theta, i, jEnd - 1, j, k);
      FromKeeps(w, theta, i, jEnd, Closure(w, i, j, k));
    } else {
      ScoresWithHas(w, theta, i, j, |w|, k);
      FromAdds(w, theta, i, jEnd, j, Closure(w, i, j, k));
    }
  }

  /** A score collected for `j < jEnd` was collected before `jEnd - 1`, or for `j == jEnd - 1`. */
  lemma {:induction false} FromParts(w: Mat, theta: real, i: int, jEnd: int, x: real) returns (earlier: bool)
    requires Square(w) && 0 <= i < |w| && jEnd <= |w| && x in ScoresFrom(w, theta, i, jEnd)
    ensures i + 1 < jEnd
    ensures earlier ==> x in ScoresFrom(w, theta, i, jEnd - 1)
    ensures !earlier ==> x in ScoresWith(w, theta, i, jEnd - 1, |w|)
  {
    assert ScoresFrom(w, theta, i, jEnd) == ScoresFrom(w, theta, i, jEnd - 1) + ScoresWith(w, theta, i, jEnd - 1, |w|);
    earlier := x in ScoresFrom(w, theta, i, jEnd - 1);
  }

  /** Extending the range of `j` keeps the scores collected before. */
  lemma {:induction false} FromKeeps(w: Mat, theta: real, i: int, jEnd: int, x: real)
    requires Square(w) && 0 <= i < |w| && i + 1 < jEnd <= |w| && x in ScoresFrom(w, theta, i, jEnd - 1)
    ensures x in ScoresFrom(w, theta, i, jEnd)
  {
  }

  /** Extending the range of `j` adds the scores for `j == jEnd - 1`. */
  lemma {:induction false} FromAdds(w: Mat, theta: real, i: int, jEnd: int, j: int, x: real)
    requires Square(w) && 0 <= i < j == jEnd - 1 && jEnd <= |w| && x in ScoresWith(w, theta, i, j, |w|)
    ensures x in ScoresFrom(w, theta, i, jEnd)
  {
  }

  /** Every collected score with `i < iEnd` comes from a triple `i < j < k` that reaches `theta`. */
  lemma {:induction false} ScoresBelowWitness(w: Mat, theta: real, iEnd: int, x: real) returns (i: int, j: int, k: int)
    requires Square(w) && iEnd <= |w| && x in ScoresBelow(w, theta, iEnd)
    ensures 0 <= i < iEnd && i < j < k < |w| && Closure(w, i, j, k) == x && x >= theta
    decreases iEnd
  {
    var earlier := BelowParts(w, theta, iEnd, x);
    if earlier {
      i, j, k := ScoresBelowWitness(w, theta, iEnd - 1, x);
    } else {
      j, k := ScoresFromWitness(w, theta, iEnd - 1, |w|, x);
      i := iEnd - 1;
    }
  }

  /** Every triple `i < j < k` with `i < iEnd` that reaches `theta` has its score collected. */
  lemma {:induction false} ScoresBelowHas(w: Mat, theta: real, iEnd: int, i: int, j: int, k: int)
    requires Square(w) && 0 <= i < iEnd <= |w| && i < j < k < |w| && Closure(w, i, j, k) >= theta
    ensures Closure(w, i, j, k) in ScoresBelow(w, theta, iEnd)
    decreases iEnd
  {
    if i < iEnd - 1 {
      ScoresBelowHas(w, theta, iEnd - 1, i, j, k);
      BelowKeeps(w, theta, iEnd, Closure(w, i, j, k));
    } else {
      ScoresFromHas(w, theta, i, |w|, j, k);
      BelowAdds(w, theta, iEnd, i, Closure(w, i, j, k));
    }
  }

  /** A score collected for `i < iEnd` was collected before `iEnd - 1`, or for `i == iEnd - 1`. */
  lemma {:induction false} BelowParts(w: Mat, theta: real, iEnd: int, x: real) returns (earlier: bool)
    requires Square(w) && iEnd <= |w| && x in ScoresBelow(w, theta, iEnd)
    ensures 0 < iEnd
    ensures earlier ==> x in ScoresBelow(w, theta, iEnd - 1)
    ensures !earlier ==> x in ScoresFrom(w, theta, iEnd - 1, |w|)
  {
    assert ScoresBelow(w, theta, iEnd) == ScoresBelow(w, theta, iEnd - 1) + ScoresFrom(w, theta, iEnd - 1, |w|);
    earlier := x in ScoresBelow(w, theta, iEnd - 1);
  }

  /** Extending the range of `i` keeps the scores collected before. */
  lemma {:induction false} BelowKeeps(w: Mat, theta: real, iEnd: int, x: real)
    requires Square(w) && 0 < iEnd <= |w| && x in ScoresBelow(w, theta, iEnd - 1)
    ensures x in ScoresBelow(w, theta, iEnd)
  {
  }

  /** Extending the range of `i` adds the scores for `i == iEnd - 1`. */
  lemma {:induction false} BelowAdds(w: Mat, theta: real, iEnd: int, i: int, x: real)
    requires Square(w) && 0 <= i == iEnd - 1 && iEnd <= |w| && x in ScoresFrom(w, theta, i, |w|)
    ensures x in ScoresBelow(w, theta, iEnd)
  {
  }

  /** The value of `triangle_mean`: the mean of the collected scores, 0 when none reach `theta`. */
  function TriangleMeanOf(w: Mat, theta: real): real
    requires Square(w)
  {
    var triangles := Triangles(w, theta);
    if |triangles| > 0 then Sum(triangles) / (|triangles| as real) else 0.0
  }

  /**
   * The collected scores are exactly the scores of triples `i < j < k` that
   * reach `theta`, whatever their edges (no edge is required to be
   * positive); their mean is at least `theta`, and it is 0 when there are
   * none.
   */
  lemma TriangleMeanAveragesTheTriples(w: Mat, theta: real)
    requires Square(w)
    ensures forall x :: x in Triangles(w, theta) <==>
                          exists i, j, k :: 0 <= i < j < k < |w| && Closure(w, i, j, k) == x && x >= theta
    ensures Triangles(w, theta) == [] ==> TriangleMeanOf(w, theta) == 0.0
    ensures Triangles(w, theta) != [] ==> TriangleMeanOf(w, theta) >= theta
  {
    forall x
      ensures x in Triangles(w, theta) <==>
              exists i, j, k :: 0 <= i < j < k < |w| && Closure(w, i, j, k) == x && x >= theta
    {
      if x in Triangles(w, theta) {
        var i, j, k := ScoresBelowWitness(w, theta, |w|, x);
      }
      if exists i, j, k :: 0 <= i < j < k < |w| && Closure(w, i, j, k) == x && x >= theta {
        var i, j, k :| 0 <= i < j < k < |w| && Closure(w, i, j, k) == x && x >= theta;
        ScoresBelowHas(w, theta, |w|, i, j, k);
      }
    }
    var ts := Triangles(w, theta);
    if |ts| > 0 {
      assert forall a :: 0 <= a < |ts| ==> ts[a] in ts;
      MeanAtLeast(ts, theta);
    }
  }

  /** `triangle_mean`: the triple loop collecting the scores that reach `theta`, then their mean. */
  method TriangleMean(w: Mat, theta: real := DefaultTheta) returns (r: real)
    requires Square(w)
    ensures r == TriangleMeanOf(w, theta)
  {
    var n := |w|;
    var triangles: seq<real> := [];
    for i := 0 to n
      invariant triangles == ScoresBelow(w, theta, i)
    {
      assert triangles + ScoresFrom(w, theta, i, i + 1) == triangles;
      for j := i + 1 to n
        invariant triangles == ScoresBelow(w, theta, i) + ScoresFrom(w, theta, i, j)
      {
        ghost var before := triangles;
        assert triangles + ScoresWith(w, theta, i, j, j + 1) == triangles;
        for k := j + 1 to n
          invariant triangles == before + ScoresWith(w, theta, i, j, k)
        {
          var t := (w[i][j] + w[j][k] + w[k][i]) / 3.0;
          if t >= theta {
            triangles := triangles + [t];
          }
        }
      }
    }
    r := if |triangles| > 0 then Sum(triangles) / (|triangles| as real) else 0.0;
  }

  /** `asymmetry_weighted_degree`: the mean absolute deviation of the row sums. */
  function Asymmetry(w: Mat): Result<real> {
    MeanAbsDeviation(RowSums(w))
  }

  /** The asymmetry raises `ZeroDivisionError` exactly on the empty matrix, and is otherwise non-negative. */
  lemma AsymmetryNonNegative(w: Mat)
    ensures Asymmetry(w) == Raise(ZeroDivisionError) <==> |w| == 0
    ensures Asymmetry(w).Ok? ==> Asymmetry(w).value >= 0.0
  {
    MeanAbsDeviationZeroIffEqual(RowSums(w));
  }

  /** The meso proxy `H`: the total weight of the block divided by `k²`. */
  function Meso(w: Mat): (r: Result<real>)
    ensures r.Raise? <==> |w| == 0
    ensures r.Ok? ==> r.value * ((|w| * |w|) as real) == Sum(RowSums(w))
  {
    if |w| == 0 then Raise(ZeroDivisionError)
    else Ok(Sum(RowSums(w)) / ((|w| * |w|) as real))
  }

  /** With every weight in `[0, 1]`, `H` lies in `[0, 1]`. */
  lemma MesoBounds(w: Mat)
    requires Square(w) && |w| > 0
    requires forall i, j :: 0 <= i < |w| && 0 <= j < |w| ==> 0.0 <= w[i][j] <= 1.0
    ensures 0.0 <= Meso(w).value <= 1.0
  {
    var k := |w| as real;
    var rows := RowSums(w);
    forall i | 0 <= i < |w|
      ensures 0.0 <= rows[i] <= k
    {
      SumBounds(w[i], 0.0, 1.0);
    }
    SumBounds(rows, 0.0, k);
    assert (|w| * |w|) as real == k * k;
    DivideMonotone(Sum(rows), k * k, k * k);
    DivideByCount(Sum(rows), k * k);
    assert (k * k) / (k * k) == 1.0;
  }

  /** Every core entry is a node of `w`. */
  predicate CoreNodes(w: Mat, core: seq<int>) {
    forall a :: 0 <= a < |core| ==> 0 <= core[a] < |w|
  }

  /**
   * `compute_metrics_core_fixed`: `T`, `H` and `A` of the core block, and
   * `S = alpha·T + beta·H − gamma·A`.
   */
  function CoreFixed(w: Mat, core: seq<int>, alpha: real := DefaultAlpha, beta: real := DefaultBeta, gamma: real := DefaultGamma): (r: Result<Metrics>)
    requires Square(w) && CoreNodes(w, core)
    ensures r.Raise? <==> |core| == 0
    ensures r.Ok? ==> r.value.aScore >= 0.0
  {
    AsymmetryNonNegative(Submatrix(w, core));
    BlockMetrics(Submatrix(w, core), alpha, beta, gamma)
  }

  /** The metrics of the core block itself. */
  function BlockMetrics(c: Mat, alpha: real, beta: real, gamma: real): Result<Metrics>
    requires Square(c)
  {
    var t := TriangleMeanOf(c, DefaultTheta);
    var h :- Meso(c);
    var a :- Asymmetry(c);
    Ok(Metrics(t, h, a, alpha * t + beta * h - gamma * a))
  }

  /**
   * Changing the graph outside the core × core block changes nothing: two
   * graphs that agree on the block have the same metrics.
   */
  lemma CoreFixedSeesOnlyTheCore(w1: Mat, w2: Mat, core: seq<int>, alpha: real, beta: real, gamma: real)
    requires Square(w1) && Square(w2) && CoreNodes(w1, core) && CoreNodes(w2, core)
    requires forall a, b :: 0 <= a < |core| && 0 <= b < |core| ==> w1[core[a]][core[b]] == w2[core[a]][core[b]]
    ensures CoreFixed(w1, core, alpha, beta, gamma) == CoreFixed(w2, core, alpha, beta, gamma)
  {
    SubmatrixSeesOnlyTheBlock(w1, w2, core);
  }

  /**
   * An empty core raises `ZeroDivisionError`; any other core gives metrics
   * whose `T` is the triangle mean of the block (all triples, threshold 0),
   * whose `A` is non-negative, whose `H` is `Meso` of the block, and whose
   * `S` is `alpha*T + beta*H - gamma*A`.
   */
  lemma CoreFixedNeedsACore(w: Mat, core: seq<int>, alpha: real, beta: real, gamma: real)
    requires Square(w) && CoreNodes(w, core)
    ensures CoreFixed(w, core, alpha, beta, gamma) == Raise(ZeroDivisionError) <==> |core| == 0
    ensures var r := CoreFixed(w, core, alpha, beta, gamma);
            r.Ok? ==>
              r.value.tMean == TriangleMeanOf(Submatrix(w, core), DefaultTheta) &&
              Ok(r.value.hScore) == Meso(Submatrix(w, core)) &&
              r.value.aScore >= 0.0 &&
              r.value.s == alpha * r.value.tMean + beta * r.value.hScore - gamma * r.value.aScore
  {
    AsymmetryNonNegative(Submatrix(w, core));
  }

  /** `decision_act_hold`: ACT exactly when `S` reaches `thetaS`, and HOLD otherwise. */
  function DecisionActHold(m: Metrics, thetaS: real := DefaultThetaS): (d: string)
    ensures d == "ACT" || d == "HOLD"
    ensures d == "ACT" <==> m.s >= thetaS
  {
    if m.s >= thetaS then "ACT" else "HOLD"
  }
}
