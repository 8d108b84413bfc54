/**
 * Gate 3 of the trading agent: the risk kill switch. It refuses while a
 * cooldown runs, and otherwise trips on drawdown, volatility or a streak of
 * losses (in that order), arming the cooldown in the caller's state.
 */
module Gate3RiskKill {
  import opened Wrappers
  import opened TradingState

  function Max(a: real, b: real): real {
    if a >= b then a else b
  }

  /** The running peak: the largest value of a non-empty curve. */
  function Peak(curve: seq<real>): (p: real)
    requires |curve| > 0
    ensures forall i :: 0 <= i < |curve| ==> curve[i] <= p
    ensures exists i :: 0 <= i < |curve| && curve[i] == p
  {
    if |curve| == 1 then curve[0]
    else
      var p := Max(Peak(curve[..|curve| - 1]), curve[|curve| - 1]);
      assert forall i :: 0 <= i < |curve| - 1 ==> curve[i] == curve[..|curve| - 1][i];
      p
  }

  /** The drawdown at the last point of a non-empty curve, against the peak so far. */
  function LastDrawdown(curve: seq<real>): Result<real>
    requires |curve| > 0
  {
    var p := Peak(curve);
    if p == 0.0 then Raise(ZeroDivisionError) else Ok(1.0 - curve[|curve| - 1] / p)
  }

  /**
   * The maximum drawdown of a curve, never below 0: the largest `1 - v/peak`
   * over the points, each against the running peak of the prefix ending at it.
   * A zero peak makes the division raise.
   */
  function MaxDrawdown(curve: seq<real>): Result<real>
    decreases |curve|
  {
    if |curve| == 0 then Ok(0.0)
    else
      var before := MaxDrawdown(curve[..|curve| - 1]);
      var here := LastDrawdown(curve);
      if before.Raise? then before
      else if here.Raise? then here
      else Ok(Max(before.value, here.value))
  }

  /** `compute_drawdown(equity_curve)`. */
  method ComputeDrawdown(curve: seq<real>) returns (r: Result<real>)
    ensures r == MaxDrawdown(curve)
  {
    var peak := if |curve| > 0 then curve[0] else 1.0;
    var maxDd := 0.0;
    var i := 0;
    while i < |curve|
      invariant 0 <= i <= |curve|
      invariant MaxDrawdown(curve[..i]) == Ok(maxDd)
      invariant i > 0 ==> peak == Peak(curve[..i])
      invariant i == 0 && |curve| > 0 ==> peak == curve[0]
    {
      var v := curve[i];
      assert curve[..i + 1][..i] == curve[..i];
      peak := Max(peak, v);
      assert i == 0 ==> curve[..1] == [v];
      if peak == 0.0 {
        RaiseIsFinal(curve, i + 1);
        return Raise(ZeroDivisionError);
      }
      var dd := 1.0 - v / peak;
      maxDd := Max(maxDd, dd);
      i := i + 1;
    }
    assert curve[..i] == curve;
    r := Ok(maxDd);
  }

  /** Once a prefix of the curve raises, the whole curve raises the same way. */
  lemma {:induction false} RaiseIsFinal(curve: seq<real>, k: nat)
    requires k <= |curve| && MaxDrawdown(curve[..k]).Raise?
    ensures MaxDrawdown(curve) == MaxDrawdown(curve[..k])
    decreases |curve| - k
  {
    if k < |curve| {
      assert curve[..k + 1][..k] == curve[..k];
      RaiseIsFinal(curve, k + 1);
    } else {
      assert curve[..k] == curve;
    }
  }

  /** The drawdown is never negative. */
  lemma {:induction false} DrawdownNonNegative(curve: seq<real>)
    ensures MaxDrawdown(curve).Ok? ==> MaxDrawdown(curve).value >= 0.0
    decreases |curve|
  {
    if |curve| > 0 {
      DrawdownNonNegative(curve[..|curve| - 1]);
    }
  }

  predicate Positive(curve: seq<real>) {
    forall i :: 0 <= i < |curve| ==> curve[i] > 0.0
  }

  /** A curve of positive values never raises and its drawdown is below 1. */
  lemma {:induction false} PositiveCurveBelowOne(curve: seq<real>)
    requires Positive(curve)
    ensures MaxDrawdown(curve).Ok? && MaxDrawdown(curve).value < 1.0
    decreases |curve|
  {
    if |curve| > 0 {
      var prefix := curve[..|curve| - 1];
      assert Positive(prefix);
      PositiveCurveBelowOne(prefix);
      var p := Peak(curve);
      var v := curve[|curve| - 1];
      assert p >= v > 0.0;
      assert v / p > 0.0;
    }
  }

  lemma DivSelf(v: real)
    requires v != 0.0
    ensures v / v == 1.0
  {
  }

  predicate NonDecreasing(curve: seq<real>) {
    forall i, j :: 0 <= i <= j < |curve| ==> curve[i] <= curve[j]
  }

  predicate NoZero(curve: seq<real>) {
    forall i :: 0 <= i < |curve| ==> curve[i] != 0.0
  }

  /** A curve that never falls (and never touches 0, which would divide by zero) has no drawdown. */
  lemma {:induction false} NonDecreasingHasNoDrawdown(curve: seq<real>)
    requires NonDecreasing(curve) && NoZero(curve)
    ensures MaxDrawdown(curve) == Ok(0.0)
    decreases |curve|
  {
    if |curve| > 0 {
      var prefix := curve[..|curve| - 1];
      assert NonDecreasing(prefix) && NoZero(prefix);
      NonDecreasingHasNoDrawdown(prefix);
      var v := curve[|curve| - 1];
      assert Peak(curve) == v by {
        var i :| 0 <= i < |curve| && curve[i] == Peak(curve);
        assert curve[i] <= v;
      }
      DivSelf(v);
    }
  }

  /** The drawdown at point `i`, against the running peak of the prefix ending there. */
  function PointDrawdown(curve: seq<real>, i: nat): Result<real>
    requires i < |curve|
  {
    LastDrawdown(curve[..i + 1])
  }

  /**
   * The drawdown is the largest of the pointwise drawdowns: at least every
   * one of them, and equal to one of them unless it is 0.
   */
  lemma {:induction false} DrawdownIsMaximum(curve: seq<real>)
    requires MaxDrawdown(curve).Ok?
    ensures forall i :: 0 <= i < |curve| ==>
              PointDrawdown(curve, i).Ok? && PointDrawdown(curve, i).value <= MaxDrawdown(curve).value
    ensures MaxDrawdown(curve).value == 0.0
            || exists i :: 0 <= i < |curve| && PointDrawdown(curve, i) == MaxDrawdown(curve)
    decreases |curve|
  {
    if |curve| > 0 {
      var n := |curve|;
      var prefix := curve[..n - 1];
      DrawdownIsMaximum(prefix);
      assert curve[..n] == curve;
      assert PointDrawdown(curve, n - 1) == LastDrawdown(curve);
      forall i | 0 <= i < n - 1 ensures PointDrawdown(curve, i) == PointDrawdown(prefix, i) {
        assert curve[..i + 1] == prefix[..i + 1];
      }
    }
  }

  /** The thresholds of the kill switch (`cfg` of the source). */
  datatype RiskConfig = RiskConfig(maxDrawdown: real, maxVolatility: real, maxConsecutiveLosses: int, cooldownSteps: int)

  /** `xs[-n:]`. */
  function LastN(xs: seq<real>, n: nat): (w: seq<real>)
    ensures |w| == if |xs| < n then |xs| else n
    ensures w == xs[|xs| - |w|..]
  {
    if |xs| <= n then xs else xs[|xs| - n..]
  }

  /** The volatility of the last 50 returns; 0 without returns. `std` is numpy's standard deviation. */
  function Volatility(priceReturns: seq<real>, std: seq<real> -> real): (vol: real)
    ensures priceReturns == [] ==> vol == 0.0
  {
    if |priceReturns| > 0 then std(LastN(priceReturns, 50)) else 0.0
  }

  /**
   * `gate3_risk_kill` on a state snapshot: the gate's answer and the state it
   * leaves. The drawdown is computed first, so a curve that raises raises
   * even during a cooldown.
   */
  function RiskKill(s: RunSnapshot, priceReturns: seq<real>, cfg: RiskConfig, std: seq<real> -> real): (r: Result<(GateResult, RunSnapshot)>)
    ensures r.Raise? <==> MaxDrawdown(s.equityCurve.GetOr([1.0])).Raise?
    ensures r.Ok? ==> (r.value.0.ok <==> r.value.0 == Pass)
    ensures r.Ok? ==> r.value.1 == s || r.value.1 == s.(cooldownRemaining := Some(cfg.cooldownSteps))
    ensures r.Ok? && r.value.0.ok ==> r.value.1 == s
  {
    var dd := MaxDrawdown(s.equityCurve.GetOr([1.0]));
    if dd.Raise? then Raise(dd.error)
    else
      var vol := Volatility(priceReturns, std);
      var losses := s.consecutiveLosses.GetOr(0);
      var cooldown := s.cooldownRemaining.GetOr(0);
      var armed := s.(cooldownRemaining := Some(cfg.cooldownSteps));
      if cooldown > 0 then Ok((GateResult(false, "cooldown"), s))
      else if dd.value >= cfg.maxDrawdown then Ok((GateResult(false, "kill_drawdown"), armed))
      else if vol >= cfg.maxVolatility then Ok((GateResult(false, "kill_volatility"), armed))
      else if losses >= cfg.maxConsecutiveLosses then Ok((GateResult(false, "kill_losses"), armed))
      else Ok((Pass, s))
  }

  /** `gate3_risk_kill(state, returns, cfg)`, writing the cooldown into `state` on a kill. */
  method Check(state: RunState, priceReturns: seq<real>, cfg: RiskConfig, std: seq<real> -> real) returns (r: Result<GateResult>)
    modifies state
    ensures var spec := RiskKill(old(state.Snapshot()), priceReturns, cfg, std);
            if spec.Raise? then r == Raise(spec.error) && state.Snapshot() == old(state.Snapshot())
            else r == Ok(spec.value.0) && state.Snapshot() == spec.value.1
  {
    var dd := ComputeDrawdown(state.equityCurve.GetOr([1.0]));
    if dd.Raise? {
      return Raise(dd.error);
    }
    var vol := if |priceReturns| > 0 then std(LastN(priceReturns, 50)) else 0.0;
    var losses := state.consecutiveLosses.GetOr(0);
    var cooldown := state.cooldownRemaining.GetOr(0);
    if cooldown > 0 {
      return Ok(GateResult(false, "cooldown"));
    }
    if dd.value >= cfg.maxDrawdown {
      state.cooldownRemaining := Some(cfg.cooldownSteps);
      return Ok(GateResult(false, "kill_drawdown"));
    }
    if vol >= cfg.maxVolatility {
      state.cooldownRemaining := Some(cfg.cooldownSteps);
      return Ok(GateResult(false, "kill_volatility"));
    }
    if losses >= cfg.maxConsecutiveLosses {
      state.cooldownRemaining := Some(cfg.cooldownSteps);
      return Ok(GateResult(false, "kill_losses"));
    }
    return Ok(Pass);
  }

  predicate IsKill(reason: string) {
    reason == "kill_drawdown" || reason == "kill_volatility" || reason == "kill_losses"
  }

  /**
   * The reason is determined by the first tripped rule: cooldown, then
   * drawdown, volatility and losses, each threshold inclusive.
   */
  lemma Precedence(s: RunSnapshot, priceReturns: seq<real>, cfg: RiskConfig, std: seq<real> -> real)
    requires MaxDrawdown(s.equityCurve.GetOr([1.0])).Ok?
    ensures var r := RiskKill(s, priceReturns, cfg, std);
            var dd := MaxDrawdown(s.equityCurve.GetOr([1.0])).value;
            var vol := Volatility(priceReturns, std);
            var idle := s.cooldownRemaining.GetOr(0) <= 0;
            && r.Ok?
            && (r.value.0.reason == "cooldown" <==> !idle)
            && (r.value.0.reason == "kill_drawdown" <==> idle && dd >= cfg.maxDrawdown)
            && (r.value.0.reason == "kill_volatility" <==> idle && dd < cfg.maxDrawdown && vol >= cfg.maxVolatility)
            && (r.value.0.reason == "kill_losses" <==>
                  idle && dd < cfg.maxDrawdown && vol < cfg.maxVolatility
                  && s.consecutiveLosses.GetOr(0) >= cfg.maxConsecutiveLosses)
            && (r.value.0.ok <==> r.value.0 == Pass)
  {
  }

  /**
   * Only a kill writes the state, and it writes exactly `cooldown_remaining`;
   * a cooldown refusal and a pass leave the state as it was.
   */
  lemma WritesOnlyCooldown(s: RunSnapshot, priceReturns: seq<real>, cfg: RiskConfig, std: seq<real> -> real)
    requires RiskKill(s, priceReturns, cfg, std).Ok?
    ensures var (g, s') := RiskKill(s, priceReturns, cfg, std).value;
            (IsKill(g.reason) ==> s' == s.(cooldownRemaining := Some(cfg.cooldownSteps)))
            && (!IsKill(g.reason) ==> s' == s)
  {
  }

  /** A killed gate is refused at once on the next call, as long as the cooldown is positive. */
  lemma KillThenCooldown(s: RunSnapshot, priceReturns: seq<real>, laterReturns: seq<real>, cfg: RiskConfig, std: seq<real> -> real)
    requires cfg.cooldownSteps > 0
    requires RiskKill(s, priceReturns, cfg, std).Ok? && IsKill(RiskKill(s, priceReturns, cfg, std).value.0.reason)
    ensures var s' := RiskKill(s, priceReturns, cfg, std).value.1;
            RiskKill(s', laterReturns, cfg, std) == Ok((GateResult(false, "cooldown"), s'))
  {
    WritesOnlyCooldown(s, priceReturns, cfg, std);
    var s' := s.(cooldownRemaining := Some(cfg.cooldownSteps));
    assert MaxDrawdown(s'.equityCurve.GetOr([1.0])).Ok?;
    CoolingDownRefuses(s', laterReturns, cfg, std);
  }

  /** While the cooldown is positive the gate refuses with `cooldown` and changes nothing, unless the drawdown raises. */
  lemma CoolingDownRefuses(s: RunSnapshot, priceReturns: seq<real>, cfg: RiskConfig, std: seq<real> -> real)
    requires s.cooldownRemaining.Some? && s.cooldownRemaining.value > 0
    requires MaxDrawdown(s.equityCurve.GetOr([1.0])).Ok?
    ensures RiskKill(s, priceReturns, cfg, std) == Ok((GateResult(false, "cooldown"), s))
  {
  }

  /** A missing equity curve is the flat curve [1.0], which has no drawdown. */
  lemma MissingCurveHasNoDrawdown()
    ensures MaxDrawdown([1.0]) == Ok(0.0)
  {
    assert [1.0][..0] == [];
  }
}
