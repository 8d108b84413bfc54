/**
 * Market features derived from a return series: realised volatility, the
 * coherence and friction proxies clamped to [0, 1], and a coarse regime.
 * `np.std` and `np.mean` are parameters: the model does not compute square
 * roots.
 */
module Features {
  import opened Wrappers

  /** `max(0.0, min(1.0, x))`. */
  function Clamp01(x: real): (r: real)
    ensures 0.0 <= r <= 1.0
    ensures 0.0 <= x <= 1.0 ==> r == x
    ensures x < 0.0 ==> r == 0.0
    ensures x > 1.0 ==> r == 1.0
  {
    if x < 0.0 then 0.0 else if x > 1.0 then 1.0 else x
  }

  /** `returns[-window:]` for a non-negative window: the whole series for 0. */
  function Suffix(xs: seq<real>, window: nat): (w: seq<real>)
    ensures |w| <= |xs| && w == xs[|xs| - |w|..]
    ensures window == 0 || |xs| < window ==> w == xs
    ensures 0 < window <= |xs| ==> |w| == window
  {
    if window == 0 || |xs| < window then xs else xs[|xs| - window..]
  }

  /**
   * `realized_vol(returns, window)`: the standard deviation of the last
   * `window` returns, of all of them when there are fewer, and 0 when there
   * are none.
   */
  function RealizedVol(priceReturns: seq<real>, window: nat, std: seq<real> -> real): (vol: real)
    ensures priceReturns == [] ==> vol == 0.0
    ensures priceReturns != [] && |priceReturns| < window ==> vol == std(priceReturns)
    ensures 0 < window <= |priceReturns| ==> vol == std(priceReturns[|priceReturns| - window..])
  {
    if |priceReturns| == 0 then 0.0 else std(Suffix(priceReturns, window))
  }

  /** `coherence_from_vol(vol)`: one minus ten times the volatility, clamped. */
  function CoherenceFromVol(vol: real): (c: real)
    ensures 0.0 <= c <= 1.0
    ensures c == 1.0 <==> vol <= 0.0
    ensures c == 0.0 <==> vol >= 0.1
  {
    Clamp01(1.0 - 10.0 * vol)
  }

  /** `friction_from_vol(vol)`: ten times the volatility, clamped. */
  function FrictionFromVol(vol: real): (f: real)
    ensures 0.0 <= f <= 1.0
    ensures f == 0.0 <==> vol <= 0.0
    ensures f == 1.0 <==> vol >= 0.1
  {
    Clamp01(10.0 * vol)
  }

  /** Coherence and friction always add up to one. */
  lemma CoherencePlusFriction(vol: real)
    ensures CoherenceFromVol(vol) + FrictionFromVol(vol) == 1.0
  {
  }

  /** More volatility never raises coherence and never lowers friction. */
  lemma MonotoneInVol(v1: real, v2: real)
    requires v1 <= v2
    ensures CoherenceFromVol(v2) <= CoherenceFromVol(v1)
    ensures FrictionFromVol(v1) <= FrictionFromVol(v2)
  {
  }

  datatype Regime = Unknown | TrendUp | TrendDown | Range {
    /** The label the source returns. */
    function Name(): string {
      match this
      case Unknown => "unknown"
      case TrendUp => "trend_up"
      case TrendDown => "trend_down"
      case Range => "range"
    }
  }

  /** The classification branch of `regime_from_returns`, for `count` returns and the z-score `z`. */
  function Classify(count: nat, z: real): (g: Regime)
    ensures g == Unknown <==> count < 2
    ensures count >= 2 ==> (g == TrendUp <==> z > 0.2)
    ensures count >= 2 ==> (g == TrendDown <==> z < -0.2)
    ensures count >= 2 ==> (g == Range <==> -0.2 <= z <= 0.2)
  {
    if count < 2 then Unknown
    else if z > 0.2 then TrendUp
    else if z < -0.2 then TrendDown
    else Range
  }

  /** The constant added to the deviation before dividing. */
  const Epsilon: real := 0.000000000001

  /**
   * `regime_from_returns(returns, window)`: classify the mean of the last
   * `window` returns against their deviation plus `Epsilon`. A denominator
   * of exactly zero makes the float division raise.
   */
  function RegimeFromReturns(priceReturns: seq<real>, window: nat, mean: seq<real> -> real, std: seq<real> -> real): Result<Regime> {
    if |priceReturns| < 2 then Ok(Unknown)
    else
      var w := Suffix(priceReturns, window);
      var vol := std(w) + Epsilon;
      if vol == 0.0 then Raise(ZeroDivisionError)
      else Ok(Classify(|priceReturns|, mean(w) / vol))
  }

  /**
   * Short series are unknown and never raise; a longer series with a
   * non-negative deviation is never unknown and is one of the three trends.
   */
  lemma RegimeCases(priceReturns: seq<real>, window: nat, mean: seq<real> -> real, std: seq<real> -> real)
    ensures |priceReturns| < 2 <==> RegimeFromReturns(priceReturns, window, mean, std) == Ok(Unknown)
    ensures |priceReturns| >= 2 && std(Suffix(priceReturns, window)) >= 0.0 ==>
              RegimeFromReturns(priceReturns, window, mean, std).Ok?
  {
  }

  /** The feature dict built by `extract_features`. */
  datatype FeatureSet = FeatureSet(volatility: real, coherence: real, friction: real, regime: Result<Regime>)

  /** `extract_features(returns)`: volatility over 20 returns, regime over 50. */
  function ExtractFeatures(priceReturns: seq<real>, mean: seq<real> -> real, std: seq<real> -> real): (f: FeatureSet)
    ensures 0.0 <= f.coherence <= 1.0 && 0.0 <= f.friction <= 1.0
    ensures f.coherence + f.friction == 1.0
    ensures f.volatility == RealizedVol(priceReturns, 20, std)
    ensures f.regime == RegimeFromReturns(priceReturns, 50, mean, std)
  {
    var vol := RealizedVol(priceReturns, 20, std);
    CoherencePlusFriction(vol);
    FeatureSet(vol, CoherenceFromVol(vol), FrictionFromVol(vol), RegimeFromReturns(priceReturns, 50, mean, std))
  }

  /** Without returns the features are those of a calm, unknown market. */
  lemma NoReturnsIsCalm(mean: seq<real> -> real, std: seq<real> -> real)
    ensures ExtractFeatures([], mean, std) == FeatureSet(0.0, 1.0, 0.0, Ok(Unknown))
  {
  }
}
