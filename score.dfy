/**
 * The linear decision score of the trading agent: projected return, minus
 * the risk terms, plus the coherence and friction proxies and an external
 * bonus, each with its own weight.
 */
module Score {
  import opened Wrappers
  import opened Values

  datatype Weights = Weights(wE: real, wSigma: real, wDD: real, wRuin: real, wT: real, wV: real, wX: real)

  const DefaultWeights: Weights := Weights(1.0, 1.0, 1.0, 1.0, 0.25, 0.25, 0.5)

  /** The numbers the score is made of, once looked up. */
  datatype ScoreInputs = ScoreInputs(mu: real, sigma: real, pDd: real, pRuin: real, coherence: real, friction: real, xBonus: real)

  predicate NonNegative(w: Weights) {
    w.wE >= 0.0 && w.wSigma >= 0.0 && w.wDD >= 0.0 && w.wRuin >= 0.0 && w.wT >= 0.0 && w.wV >= 0.0 && w.wX >= 0.0
  }

  /** The score formula, with `V = 1 - friction`. */
  function Linear(w: Weights, a: ScoreInputs): real {
    w.wE * a.mu - w.wSigma * a.sigma - w.wDD * a.pDd - w.wRuin * a.pRuin
    + w.wT * a.coherence + w.wV * (1.0 - a.friction) + w.wX * a.xBonus
  }

  /** `b` is at least as good as `a` on every term: more return, coherence and bonus, less of the rest. */
  predicate Dominates(b: ScoreInputs, a: ScoreInputs) {
    b.mu >= a.mu && b.sigma <= a.sigma && b.pDd <= a.pDd && b.pRuin <= a.pRuin
    && b.coherence >= a.coherence && b.friction <= a.friction && b.xBonus >= a.xBonus
  }

  lemma ScaleMonotone(k: real, x: real, y: real)
    requires k >= 0.0 && x <= y
    ensures k * x <= k * y
  {
    assert k * y - k * x == k * (y - x);
  }

  /**
   * With non-negative weights the score is non-decreasing in mu, coherence and
   * the bonus, and non-increasing in sigma, the two risk probabilities and
   * friction.
   */
  lemma ScoreMonotone(w: Weights, a: ScoreInputs, b: ScoreInputs)
    requires NonNegative(w) && Dominates(b, a)
    ensures Linear(w, a) <= Linear(w, b)
  {
    var ea, eb := w.wE * a.mu, w.wE * b.mu;
    var sa, sb := w.wSigma * a.sigma, w.wSigma * b.sigma;
    var da, db := w.wDD * a.pDd, w.wDD * b.pDd;
    var ra, rb := w.wRuin * a.pRuin, w.wRuin * b.pRuin;
    var ta, tb := w.wT * a.coherence, w.wT * b.coherence;
    var va, vb := w.wV * (1.0 - a.friction), w.wV * (1.0 - b.friction);
    var xa, xb := w.wX * a.xBonus, w.wX * b.xBonus;
    ScaleMonotone(w.wE, a.mu, b.mu);
    ScaleMonotone(w.wSigma, b.sigma, a.sigma);
    ScaleMonotone(w.wDD, b.pDd, a.pDd);
    ScaleMonotone(w.wRuin, b.pRuin, a.pRuin);
    ScaleMonotone(w.wT, a.coherence, b.coherence);
    ScaleMonotone(w.wV, 1.0 - a.friction, 1.0 - b.friction);
    ScaleMonotone(w.wX, a.xBonus, b.xBonus);
    assert Linear(w, a) == ea - sa - da - ra + ta + va + xa;
    assert Linear(w, b) == eb - sb - db - rb + tb + vb + xb;
  }

  /** `float(weights.get(key, default))`. */
  function Weight(weights: Dict, key: string, default: real): Result<real> {
    ToFloat(Get(weights, key, VFloat(default)))
  }

  /** The weights dict read key by key, in the source's order, every absent key falling back to its default. */
  function WeightsOf(weights: Dict): Result<Weights> {
    var wE :- Weight(weights, "w_E", 1.0);
    var wSigma :- Weight(weights, "w_sigma", 1.0);
    var wDD :- Weight(weights, "w_DD", 1.0);
    var wRuin :- Weight(weights, "w_ruin", 1.0);
    var wT :- Weight(weights, "w_T", 0.25);
    var wV :- Weight(weights, "w_V", 0.25);
    var wX :- Weight(weights, "w_X", 0.5);
    Ok(Weights(wE, wSigma, wDD, wRuin, wT, wV, wX))
  }

  /** An empty weights dict gives the default weights. */
  lemma EmptyWeightsAreDefault()
    ensures WeightsOf(map[]) == Ok(DefaultWeights)
  {
  }

  /**
   * `compute_score(projected, features, x_bonus, weights, dd_threshold)`.
   * The projected values are used as they are, so a non-number there makes
   * the arithmetic raise `TypeError`; coherence, friction and the weights go
   * through `float()`. `dd_threshold` is accepted and never used.
   */
  function ComputeScore(projected: Dict, features: Dict, xBonus: real, weights: Dict, ddThreshold: real): (r: Result<real>)
    ensures r.Ok? ==> WeightsOf(weights).Ok?
    ensures r.Ok? ==> ToFloat(Get(features, "coherence", VFloat(0.0))).Ok? && ToFloat(Get(features, "friction", VFloat(0.0))).Ok?
  {
    var e := Get(projected, "mu", VFloat(0.0));
    var sigma := Get(projected, "sigma", VFloat(0.0));
    var pDd := Get(projected, "p_dd", VFloat(0.0));
    var pRuin := Get(projected, "p_ruin", VFloat(0.0));
    var t :- ToFloat(Get(features, "coherence", VFloat(0.0)));
    var friction :- ToFloat(Get(features, "friction", VFloat(0.0)));
    var w :- WeightsOf(weights);
    var eN :- Number(e);
    var sigmaN :- Number(sigma);
    var pDdN :- Number(pDd);
    var pRuinN :- Number(pRuin);
    Ok(Linear(w, ScoreInputs(eN, sigmaN, pDdN, pRuinN, t, friction, xBonus)))
  }

  /** `d[k]` is present and a plain float. */
  predicate FloatAt(d: Dict, k: string) {
    k in d && d[k].VFloat?
  }

  /**
   * With float-valued inputs the score is the linear formula on them, under
   * the weights read from the weights dict.
   */
  lemma ComputeScoreIsLinear(projected: Dict, features: Dict, xBonus: real, weights: Dict, ddThreshold: real)
    requires FloatAt(projected, "mu") && FloatAt(projected, "sigma") && FloatAt(projected, "p_dd") && FloatAt(projected, "p_ruin")
    requires FloatAt(features, "coherence") && FloatAt(features, "friction")
    requires WeightsOf(weights).Ok?
    ensures ComputeScore(projected, features, xBonus, weights, ddThreshold)
            == Ok(Linear(WeightsOf(weights).value,
                         ScoreInputs(projected["mu"].r, projected["sigma"].r, projected["p_dd"].r, projected["p_ruin"].r,
                                     features["coherence"].r, features["friction"].r, xBonus)))
  {
    assert ToFloat(features["coherence"]) == Ok(features["coherence"].r);
    assert ToFloat(features["friction"]) == Ok(features["friction"].r);
  }

  /** Missing projected and feature keys count as 0. */
  lemma MissingKeysAreZero(xBonus: real, weights: Dict, ddThreshold: real)
    requires WeightsOf(weights).Ok?
    ensures ComputeScore(map[], map[], xBonus, weights, ddThreshold)
            == Ok(Linear(WeightsOf(weights).value, ScoreInputs(0.0, 0.0, 0.0, 0.0, 0.0, 0.0, xBonus)))
  {
  }

  /** The drawdown threshold argument never changes the score. */
  lemma DdThresholdIgnored(projected: Dict, features: Dict, xBonus: real, weights: Dict, d1: real, d2: real)
    ensures ComputeScore(projected, features, xBonus, weights, d1) == ComputeScore(projected, features, xBonus, weights, d2)
  {
  }

  /** A string where a projected number is expected makes the score raise `TypeError`. */
  lemma TextProjectionRaises(projected: Dict, s: string, xBonus: real)
    requires projected == map["mu" := VStr(s)]
    ensures ComputeScore(projected, map[], xBonus, map[], 0.0) == Raise(TypeError)
  {
  }
}
