/**
 * The ROI policy of the trading agent: a small state machine that may exit
 * to a safe mode on a kill, and otherwise, outside a cooldown, toggles the
 * strategy or steps the risk level along a fixed ladder.
 */
module RoiPolicy {
  import opened Wrappers

  /** The `roi` section of the configuration, with its values already converted. */
  datatype RoiConfig = RoiConfig(
    defaultRiskLevel: real,
    roiCooldownSteps: int,
    strategyChangeMinPersistSteps: int,
    riskLevels: seq<real>)

  /** The contents of a `RoiState` at one moment. */
  datatype RoiSnapshot = RoiSnapshot(
    riskLevel: real,
    strategy: string,
    lastRoiDecisionStep: int,
    lastStrategyChangeStep: int,
    safeMode: bool)

  datatype RoiAction = EXIT_MARKET_SAFE | HOLD_SAFE | NOOP | CHANGE_STRATEGY | ADJUST_RISK_UP | ADJUST_RISK_DOWN

  /** The step marker of a state that has never decided: `-10**9`. */
  const NeverStep: int := -1_000_000_000

  /** The state `roi_init(cfg)` returns. */
  function InitialSnapshot(cfg: RoiConfig): RoiSnapshot {
    RoiSnapshot(cfg.defaultRiskLevel, "base", NeverStep, NeverStep, false)
  }

  predicate IsKillReason(reason: Option<string>) {
    reason == Some("kill_drawdown") || reason == Some("kill_losses") || reason == Some("kill_volatility")
  }

  function Dist(a: real, b: real): real {
    if a >= b then a - b else b - a
  }

  /**
   * `min(range(len(levels)), key=lambda i: abs(levels[i] - x))`: the index of
   * the level nearest to `x`, the first one on a tie.
   */
  function NearestIndex(levels: seq<real>, x: real): (i: nat)
    requires |levels| > 0
    ensures i < |levels|
    ensures forall j :: 0 <= j < |levels| ==> Dist(levels[i], x) <= Dist(levels[j], x)
    ensures forall j :: 0 <= j < i ==> Dist(levels[j], x) > Dist(levels[i], x)
    decreases |levels|
  {
    if |levels| == 1 then 0
    else
      var k := NearestIndex(levels[..|levels| - 1], x);
      assert forall j :: 0 <= j < |levels| - 1 ==> levels[..|levels| - 1][j] == levels[j];
      if Dist(levels[|levels| - 1], x) < Dist(levels[k], x) then |levels| - 1 else k
  }

  /**
   * `roi_decide(roi, step, mean_score, cfg, gate3_reason)` on a snapshot: the
   * action and the state it leaves. Rules in order: a kill exits to safe
   * mode; safe mode holds; inside the cooldown nothing happens; a
   * non-negative mean score that has persisted toggles the strategy; a mean
   * score beyond 0.1 either way steps the risk level; otherwise nothing. With
   * no risk levels, the risk step raises `ValueError` as `min` of an empty
   * range does.
   */
  function RoiDecide(s: RoiSnapshot, step: int, meanScore: real, cfg: RoiConfig, gate3Reason: Option<string>): (r: Result<(RoiAction, RoiSnapshot)>)
    ensures r.Raise? ==> |cfg.riskLevels| == 0 && r.error == ValueError
    ensures r.Ok? ==> (r.value.1.safeMode <==> s.safeMode || IsKillReason(gate3Reason))
    ensures r.Ok? && (r.value.0 == NOOP || r.value.0 == HOLD_SAFE) ==> r.value.1 == s
    ensures r.Ok? ==> r.value.1.riskLevel == s.riskLevel || r.value.1.riskLevel in cfg.riskLevels
  {
    if IsKillReason(gate3Reason) then
      Ok((EXIT_MARKET_SAFE, s.(safeMode := true, lastRoiDecisionStep := step)))
    else if s.safeMode then Ok((HOLD_SAFE, s))
    else if step - s.lastRoiDecisionStep < cfg.roiCooldownSteps then Ok((NOOP, s))
    else if meanScore >= 0.0 && step - s.lastStrategyChangeStep >= cfg.strategyChangeMinPersistSteps then
      Ok((CHANGE_STRATEGY, s.(strategy := if s.strategy == "base" then "alt" else "base",
                             lastStrategyChangeStep := step, lastRoiDecisionStep := step)))
    else if |cfg.riskLevels| == 0 then Raise(ValueError)
    else
      var levels := cfg.riskLevels;
      var idx := NearestIndex(levels, s.riskLevel);
      if meanScore > 0.1 && idx < |levels| - 1 then
        Ok((ADJUST_RISK_UP, s.(riskLevel := levels[idx + 1], lastRoiDecisionStep := step)))
      else if meanScore < -0.1 && idx > 0 then
        Ok((ADJUST_RISK_DOWN, s.(riskLevel := levels[idx - 1], lastRoiDecisionStep := step)))
      else Ok((NOOP, s))
  }

  /** A kill reason always exits to safe mode and records the step, touching nothing else. */
  lemma KillExitsToSafeMode(s: RoiSnapshot, step: int, meanScore: real, cfg: RoiConfig, gate3Reason: Option<string>)
    requires IsKillReason(gate3Reason)
    ensures RoiDecide(s, step, meanScore, cfg, gate3Reason)
            == Ok((EXIT_MARKET_SAFE, s.(safeMode := true, lastRoiDecisionStep := step)))
  {
  }

  /**
   * Safe mode is absorbing: it is never cleared, and without a kill the
   * answer is `HOLD_SAFE` with the state unchanged.
   */
  lemma SafeModeIsAbsorbing(s: RoiSnapshot, step: int, meanScore: real, cfg: RoiConfig, gate3Reason: Option<string>)
    requires s.safeMode
    ensures RoiDecide(s, step, meanScore, cfg, gate3Reason).Ok?
    ensures RoiDecide(s, step, meanScore, cfg, gate3Reason).value.1.safeMode
    ensures !IsKillReason(gate3Reason) ==> RoiDecide(s, step, meanScore, cfg, gate3Reason) == Ok((HOLD_SAFE, s))
  {
  }

  /** Only a kill turns safe mode on. */
  lemma OnlyKillEntersSafeMode(s: RoiSnapshot, step: int, meanScore: real, cfg: RoiConfig, gate3Reason: Option<string>)
    requires !s.safeMode && RoiDecide(s, step, meanScore, cfg, gate3Reason).Ok?
    ensures RoiDecide(s, step, meanScore, cfg, gate3Reason).value.1.safeMode <==> IsKillReason(gate3Reason)
  {
  }

  /** Inside the cooldown, and outside safe mode, nothing happens. */
  lemma CooldownIsNoop(s: RoiSnapshot, step: int, meanScore: real, cfg: RoiConfig)
    requires !s.safeMode && step - s.lastRoiDecisionStep < cfg.roiCooldownSteps
    ensures RoiDecide(s, step, meanScore, cfg, None) == Ok((NOOP, s))
  {
  }

  /**
   * Every answer but an exit, a strategy change or a risk step leaves the
   * state as it was; the three that act record the step.
   */
  lemma PassiveActionsLeaveState(s: RoiSnapshot, step: int, meanScore: real, cfg: RoiConfig, gate3Reason: Option<string>)
    requires RoiDecide(s, step, meanScore, cfg, gate3Reason).Ok?
    ensures var (a, s') := RoiDecide(s, step, meanScore, cfg, gate3Reason).value;
            (a == NOOP || a == HOLD_SAFE ==> s' == s)
            && (a != NOOP && a != HOLD_SAFE ==> s'.lastRoiDecisionStep == step)
  {
  }

  /** A strategy change toggles base and alt (anything else becomes base) and moves both markers. */
  lemma ChangeStrategyToggles(s: RoiSnapshot, step: int, meanScore: real, cfg: RoiConfig, gate3Reason: Option<string>)
    requires RoiDecide(s, step, meanScore, cfg, gate3Reason).Ok?
    requires RoiDecide(s, step, meanScore, cfg, gate3Reason).value.0 == CHANGE_STRATEGY
    ensures var s' := RoiDecide(s, step, meanScore, cfg, gate3Reason).value.1;
            && s'.strategy == (if s.strategy == "base" then "alt" else "base")
            && s'.lastStrategyChangeStep == step && s'.lastRoiDecisionStep == step
            && s'.riskLevel == s.riskLevel && s'.safeMode == s.safeMode
            && meanScore >= 0.0
  {
  }

  /**
   * A risk step moves exactly one rung of the ladder from the rung nearest to
   * the current level, and the new level is always a rung.
   */
  lemma RiskStepMovesOneRung(s: RoiSnapshot, step: int, meanScore: real, cfg: RoiConfig, gate3Reason: Option<string>)
    requires RoiDecide(s, step, meanScore, cfg, gate3Reason).Ok?
    requires RoiDecide(s, step, meanScore, cfg, gate3Reason).value.0 in {ADJUST_RISK_UP, ADJUST_RISK_DOWN}
    ensures |cfg.riskLevels| > 0
    ensures var (a, s') := RoiDecide(s, step, meanScore, cfg, gate3Reason).value;
            var idx := NearestIndex(cfg.riskLevels, s.riskLevel);
            && (a == ADJUST_RISK_UP ==> idx + 1 < |cfg.riskLevels| && s'.riskLevel == cfg.riskLevels[idx + 1] && meanScore > 0.1)
            && (a == ADJUST_RISK_DOWN ==> idx >= 1 && s'.riskLevel == cfg.riskLevels[idx - 1] && meanScore < -0.1)
            && s'.riskLevel in cfg.riskLevels
            && s'.strategy == s.strategy && s'.lastStrategyChangeStep == s.lastStrategyChangeStep
  {
  }

  /** The mutable `RoiState` record. */
  class RoiState {
    var riskLevel: real
    var strategy: string
    var lastRoiDecisionStep: int
    var lastStrategyChangeStep: int
    var safeMode: bool

    /** `roi_init(cfg)`. */
    constructor Init(cfg: RoiConfig)
      ensures Snapshot() == InitialSnapshot(cfg)
      ensures Snapshot() == RoiSnapshot(cfg.defaultRiskLevel, "base", NeverStep, NeverStep, false)
    {
      riskLevel := cfg.defaultRiskLevel;
      strategy := "base";
      lastRoiDecisionStep := NeverStep;
      lastStrategyChangeStep := NeverStep;
      safeMode := false;
    }

    function Snapshot(): RoiSnapshot
      reads this
    {
      RoiSnapshot(riskLevel, strategy, lastRoiDecisionStep, lastStrategyChangeStep, safeMode)
    }

    /** `roi_decide(self, step, mean_score, cfg, gate3_reason)`, assigning the fields in place. */
    method Decide(step: int, meanScore: real, cfg: RoiConfig, gate3Reason: Option<string>) returns (r: Result<RoiAction>)
      modifies this
      ensures var spec := RoiDecide(old(Snapshot()), step, meanScore, cfg, gate3Reason);
              if spec.Raise? then r == Raise(spec.error) && Snapshot() == old(Snapshot())
              else r == Ok(spec.value.0) && Snapshot() == spec.value.1
    {
      if IsKillReason(gate3Reason) {
        safeMode := true;
        lastRoiDecisionStep := step;
        return Ok(EXIT_MARKET_SAFE);
      }
      if safeMode {
        return Ok(HOLD_SAFE);
      }
      if step - lastRoiDecisionStep < cfg.roiCooldownSteps {
        return Ok(NOOP);
      }
      if meanScore >= 0.0 && step - lastStrategyChangeStep >= cfg.strategyChangeMinPersistSteps {
        strategy := if strategy == "base" then "alt" else "base";
        lastStrategyChangeStep := step;
        lastRoiDecisionStep := step;
        return Ok(CHANGE_STRATEGY);
      }
      var levels := cfg.riskLevels;
      if |levels| == 0 {
        return Raise(ValueError);
      }
      var idx := NearestIndex(levels, riskLevel);
      if meanScore > 0.1 && idx < |levels| - 1 {
        riskLevel := levels[idx + 1];
        lastRoiDecisionStep := step;
        return Ok(ADJUST_RISK_UP);
      }
      if meanScore < -0.1 && idx > 0 {
        riskLevel := levels[idx - 1];
        lastRoiDecisionStep := step;
        return Ok(ADJUST_RISK_DOWN);
      }
      return Ok(NOOP);
    }
  }
}
