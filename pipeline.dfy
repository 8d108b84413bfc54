/**
 * The governance pipeline of the application: the simulation verdict, the
 * evaluation of the three trading gates with their fixed priority, and the
 * emission of an ERC-8004 intent for an executable decision.
 */
module CorePipeline {
  import opened Wrappers
  import opened Values
  import opened TradingState
  import Gate1Integrity
  import Gate2Temporal
  import Gate3RiskKill
  import Erc8004

  datatype SimVerdict = OK | UNCERTAIN | DESTRUCTIVE {
    function Rank(): nat {
      match this
      case OK => 0
      case UNCERTAIN => 1
      case DESTRUCTIVE => 2
    }
  }

  /** The verdict `run_simulation` attaches to a projection; both thresholds are strict. */
  function VerdictOf(pRuin: real, pDd: real): (v: SimVerdict)
    ensures v == DESTRUCTIVE <==> pRuin > 0.10 || pDd > 0.25
    ensures v == UNCERTAIN <==> pRuin <= 0.10 && pDd <= 0.25 && (pRuin > 0.05 || pDd > 0.15)
    ensures v == OK <==> pRuin <= 0.05 && pDd <= 0.15
  {
    if pRuin > 0.10 || pDd > 0.25 then DESTRUCTIVE
    else if pRuin > 0.05 || pDd > 0.15 then UNCERTAIN
    else OK
  }

  /** A riskier projection never gets a milder verdict. */
  lemma VerdictMonotone(pRuin1: real, pDd1: real, pRuin2: real, pDd2: real)
    requires pRuin1 <= pRuin2 && pDd1 <= pDd2
    ensures VerdictOf(pRuin1, pDd1).Rank() <= VerdictOf(pRuin2, pDd2).Rank()
  {
  }

  datatype Decision = BLOCK | HOLD | EXECUTE {
    function Name(): string {
      match this
      case BLOCK => "BLOCK"
      case HOLD => "HOLD"
      case EXECUTE => "EXECUTE"
    }
  }

  /** The law recorded for a decision; the X-108 law shows the hold in seconds. */
  datatype Law = IntegrityViolation | RiskKillswitch | X108Hold(tauSeconds: real) | DestructiveProjection | AllGatesPass {
    /** The rendered law; `floatRepr` is Python's `str()` of a float. */
    function Text(floatRepr: real -> string): string {
      match this
      case IntegrityViolation => "Gate1: Integrity violation \U{2192} D \U{27C2}"
      case RiskKillswitch => "Gate3: Risk killswitch \U{2192} D \U{27C2}"
      case X108Hold(tau) => "X-108: T < \U{03C4} (" + floatRepr(tau) + "s) \U{2192} D \U{27C2} (HOLD)"
      case DestructiveProjection => "Simulation: destructive projection \U{2192} D \U{27C2}"
      case AllGatesPass => "All gates PASS \U{2192} action admissible"
    }
  }

  /** The `gates_result` dict. */
  datatype GatesResult = GatesResult(
    gate1: GateResult,
    gate2: GateResult,
    gate3: GateResult,
    decision: Decision,
    reason: string,
    laws: seq<Law>)

  /**
   * The composition step of `evaluate_gates`: gate 1, then gate 3, block;
   * gate 2 holds; a destructive projection blocks; otherwise execute. Each
   * gate's answer is copied as it is and exactly one law is recorded.
   */
  function Compose(g1: GateResult, g2: GateResult, g3: GateResult, verdict: Option<SimVerdict>, tauSeconds: real): (r: GatesResult)
    ensures r.gate1 == g1 && r.gate2 == g2 && r.gate3 == g3 && |r.laws| == 1
    ensures !g1.ok ==> r.decision == BLOCK && r.reason == g1.reason && r.laws == [IntegrityViolation]
    ensures g1.ok && !g3.ok ==> r.decision == BLOCK && r.reason == g3.reason && r.laws == [RiskKillswitch]
    ensures g1.ok && g3.ok && !g2.ok ==> r.decision == HOLD && r.reason == g2.reason && r.laws == [X108Hold(tauSeconds)]
    ensures g1.ok && g3.ok && g2.ok && verdict == Some(DESTRUCTIVE) ==>
              r.decision == BLOCK && r.reason == "simulation_destructive" && r.laws == [DestructiveProjection]
    ensures r.decision == EXECUTE <==> g1.ok && g2.ok && g3.ok && verdict != Some(DESTRUCTIVE)
    ensures r.decision == EXECUTE ==> r.reason == "pass" && r.laws == [AllGatesPass]
  {
    if !g1.ok then GatesResult(g1, g2, g3, BLOCK, g1.reason, [IntegrityViolation])
    else if !g3.ok then GatesResult(g1, g2, g3, BLOCK, g3.reason, [RiskKillswitch])
    else if !g2.ok then GatesResult(g1, g2, g3, HOLD, g2.reason, [X108Hold(tauSeconds)])
    else if verdict == Some(DESTRUCTIVE) then GatesResult(g1, g2, g3, BLOCK, "simulation_destructive", [DestructiveProjection])
    else GatesResult(g1, g2, g3, EXECUTE, "pass", [AllGatesPass])
  }

  /** A destructive projection cannot turn a temporal hold into a block: the hold is reported. */
  lemma DestructiveUnderHoldIsHold(g1: GateResult, g2: GateResult, g3: GateResult, tauSeconds: real)
    requires g1.ok && g3.ok && !g2.ok
    ensures Compose(g1, g2, g3, Some(DESTRUCTIVE), tauSeconds).decision == HOLD
  {
  }

  /**
   * Gate 2 as `evaluate_gates` calls it, with the coherence taken from the
   * feature dict as it is: the comparison with the threshold is only reached
   * when enough time has passed, and raises `TypeError` for a non-number.
   */
  function Gate2OnValue(state: RunSnapshot, nowTs: real, holdSeconds: real, coherence: Value, threshold: real): Result<GateResult> {
    if nowTs - state.lastInvestTs.GetOr(0.0) < holdSeconds then Ok(GateResult(false, "x108_hold"))
    else
      var c :- Number(coherence);
      Ok(Gate2Temporal.Check(state, nowTs, holdSeconds, c, threshold))
  }

  /** On a numeric coherence the call is the temporal gate itself; too early, the value is never looked at. */
  lemma Gate2OnValueAgrees(state: RunSnapshot, nowTs: real, holdSeconds: real, coherence: Value, threshold: real)
    ensures Number(coherence).Ok? ==>
              Gate2OnValue(state, nowTs, holdSeconds, coherence, threshold)
              == Ok(Gate2Temporal.Check(state, nowTs, holdSeconds, Number(coherence).value, threshold))
    ensures nowTs - state.lastInvestTs.GetOr(0.0) < holdSeconds ==>
              Gate2OnValue(state, nowTs, holdSeconds, coherence, threshold) == Ok(GateResult(false, "x108_hold"))
  {
  }

  /** The coherence threshold gate 2 is given. */
  const CoherenceThreshold: real := 0.3

  /** The kill-switch configuration of the pipeline. */
  const PipelineRisk: Gate3RiskKill.RiskConfig := Gate3RiskKill.RiskConfig(0.15, 0.50, 5, 10)

  /**
   * `evaluate_gates` on a state snapshot, with the clock reading `nowTs` as a
   * parameter: all three gates run, in the order 1, 2, 3, before the
   * composition, and the state is whatever gate 3 leaves. `holdStartedTs` is
   * accepted and never read.
   */
  function EvaluateGatesSpec(intent: Dict, features: Dict, verdict: Option<SimVerdict>, holdStartedTs: real, tauSeconds: real,
                             s: RunSnapshot, priceReturns: seq<real>, nowTs: real, std: seq<real> -> real): (r: Result<(GatesResult, RunSnapshot)>)
    ensures r.Ok? ==> Gate1Integrity.Validate(intent).Ok?
    ensures r.Ok? ==> r.value.1 == s || r.value.1 == s.(cooldownRemaining := Some(PipelineRisk.cooldownSteps))
  {
    var g1 :- Gate1Integrity.Validate(intent);
    var g2 :- Gate2OnValue(s, nowTs, tauSeconds, Get(features, "coherence", VFloat(0.0)), CoherenceThreshold);
    var k :- Gate3RiskKill.RiskKill(s, priceReturns, PipelineRisk, std);
    Ok((Compose(g1, g2, k.0, verdict, tauSeconds), k.1))
  }

  /** `evaluate_gates(intent, features, sim_result, hold_started_ts, tau_seconds, state, returns, base_dir)`. */
  method EvaluateGates(intent: Dict, features: Dict, verdict: Option<SimVerdict>, holdStartedTs: real, tauSeconds: real,
                       state: RunState, priceReturns: seq<real>, nowTs: real, std: seq<real> -> real)
    returns (r: Result<GatesResult>)
    modifies state
    ensures var spec := EvaluateGatesSpec(intent, features, verdict, holdStartedTs, tauSeconds, old(state.Snapshot()), priceReturns, nowTs, std);
            if spec.Raise? then r == Raise(spec.error) && state.Snapshot() == old(state.Snapshot())
            else r == Ok(spec.value.0) && state.Snapshot() == spec.value.1
  {
    var g1 := Gate1Integrity.Validate(intent);
    if g1.Raise? {
      return Raise(g1.error);
    }
    var g2 := Gate2OnValue(state.Snapshot(), nowTs, tauSeconds, Get(features, "coherence", VFloat(0.0)), CoherenceThreshold);
    if g2.Raise? {
      return Raise(g2.error);
    }
    var g3 := Gate3RiskKill.Check(state, priceReturns, PipelineRisk, std);
    if g3.Raise? {
      return Raise(g3.error);
    }
    return Ok(Compose(g1.value, g2.value, g3.value, verdict, tauSeconds));
  }

  /** The decision never depends on `hold_started_ts`. */
  lemma HoldStartedIgnored(intent: Dict, features: Dict, verdict: Option<SimVerdict>, h1: real, h2: real, tauSeconds: real,
                           s: RunSnapshot, priceReturns: seq<real>, nowTs: real, std: seq<real> -> real)
    ensures EvaluateGatesSpec(intent, features, verdict, h1, tauSeconds, s, priceReturns, nowTs, std)
            == EvaluateGatesSpec(intent, features, verdict, h2, tauSeconds, s, priceReturns, nowTs, std)
  {
  }

  /**
   * The decision is executable exactly when the intent is well formed, the
   * temporal gate and the kill switch both pass and the projection is not
   * destructive.
   */
  lemma ExecuteIff(intent: Dict, features: Dict, verdict: Option<SimVerdict>, holdStartedTs: real, tauSeconds: real,
                   s: RunSnapshot, priceReturns: seq<real>, nowTs: real, std: seq<real> -> real)
    requires EvaluateGatesSpec(intent, features, verdict, holdStartedTs, tauSeconds, s, priceReturns, nowTs, std).Ok?
    ensures var (g, _) := EvaluateGatesSpec(intent, features, verdict, holdStartedTs, tauSeconds, s, priceReturns, nowTs, std).value;
            g.decision == EXECUTE <==>
              Gate1Integrity.WellFormed(intent) && g.gate2.ok && g.gate3.ok && verdict != Some(DESTRUCTIVE)
  {
    Gate1Integrity.PassIffWellFormed(intent);
  }

  /**
   * Gate 3 runs even when gate 1 has already decided: a malformed intent is
   * blocked for its own reason while a kill still arms the cooldown.
   */
  lemma KillArmsCooldownUnderGate1Block(intent: Dict, features: Dict, verdict: Option<SimVerdict>, holdStartedTs: real, tauSeconds: real,
                                        s: RunSnapshot, priceReturns: seq<real>, nowTs: real, std: seq<real> -> real)
    requires Gate1Integrity.Validate(intent).Ok? && !Gate1Integrity.Validate(intent).value.ok
    requires Gate2OnValue(s, nowTs, tauSeconds, Get(features, "coherence", VFloat(0.0)), CoherenceThreshold).Ok?
    requires Gate3RiskKill.RiskKill(s, priceReturns, PipelineRisk, std).Ok?
    requires Gate3RiskKill.IsKill(Gate3RiskKill.RiskKill(s, priceReturns, PipelineRisk, std).value.0.reason)
    ensures var (g, s') := EvaluateGatesSpec(intent, features, verdict, holdStartedTs, tauSeconds, s, priceReturns, nowTs, std).value;
            g.decision == BLOCK && g.reason == Gate1Integrity.Validate(intent).value.reason
            && s' == s.(cooldownRemaining := Some(10))
  {
    Gate3RiskKill.WritesOnlyCooldown(s, priceReturns, PipelineRisk, std);
  }

  /** The `gates_result` dict as stored in the intent's metadata. */
  function GatesValue(g: GatesResult, floatRepr: real -> string): Value {
    VDict(map[
      "gate1" := VDict(map["ok" := VBool(g.gate1.ok), "reason" := VStr(g.gate1.reason)]),
      "gate2" := VDict(map["ok" := VBool(g.gate2.ok), "reason" := VStr(g.gate2.reason)]),
      "gate3" := VDict(map["ok" := VBool(g.gate3.ok), "reason" := VStr(g.gate3.reason)]),
      "decision" := VStr(g.decision.Name()),
      "reason" := VStr(g.reason),
      "laws" := VList(seq(|g.laws|, i requires 0 <= i < |g.laws| => VStr(g.laws[i].Text(floatRepr))))])
  }

  /** What `emit_erc8004_intent` returns: an error dict, or the intent record. */
  datatype Emission = NotEmitted(error: string) | Emitted(record: Erc8004.TradeIntent)

  /** `intent[key]`, raising `KeyError` when absent. */
  function Lookup(intent: Dict, key: string): Result<Value> {
    if key in intent then Ok(intent[key]) else Raise(KeyError(key))
  }

  /**
   * `emit_erc8004_intent(intent, gates_result)`: anything but EXECUTE is
   * refused with a message naming the decision; otherwise the intent's fields
   * are read in order and the gates result travels in the metadata.
   */
  function EmitIntent(intent: Dict, gates: GatesResult, floatRepr: real -> string): (r: Result<Emission>)
    ensures gates.decision != EXECUTE <==> r == Ok(NotEmitted("Intent not emitted. Decision = " + gates.decision.Name()))
    ensures r.Ok? && r.value.Emitted? ==>
              && gates.decision == EXECUTE && "asset" in intent && "side" in intent
              && r.value.record.asset == intent["asset"] && r.value.record.side == intent["side"]
              && r.value.record.metadata == map["gates" := GatesValue(gates, floatRepr), "run_ref" := VStr("last_run")]
    ensures gates.decision == EXECUTE && "asset" !in intent ==> r == Raise(KeyError("asset"))
  {
    if gates.decision != EXECUTE then Ok(NotEmitted("Intent not emitted. Decision = " + gates.decision.Name()))
    else
      var asset :- Lookup(intent, "asset");
      var side :- Lookup(intent, "side");
      var amount :- Lookup(intent, "amount");
      var timestamp :- Lookup(intent, "timestamp");
      var metadata := map["gates" := GatesValue(gates, floatRepr), "run_ref" := VStr("last_run")];
      var record :- Erc8004.BuildTradeIntent(asset, side, amount, timestamp, Some(metadata));
      Ok(Emitted(record))
  }

  /**
   * An executable decision on an intent whose timestamp converts is always
   * emitted: gate 1 has already guaranteed the fields and the amount.
   */
  lemma ExecutedIntentIsEmitted(intent: Dict, features: Dict, verdict: Option<SimVerdict>, holdStartedTs: real, tauSeconds: real,
                                s: RunSnapshot, priceReturns: seq<real>, nowTs: real, std: seq<real> -> real, floatRepr: real -> string)
    requires EvaluateGatesSpec(intent, features, verdict, holdStartedTs, tauSeconds, s, priceReturns, nowTs, std).Ok?
    requires EvaluateGatesSpec(intent, features, verdict, holdStartedTs, tauSeconds, s, priceReturns, nowTs, std).value.0.decision == EXECUTE
    requires "timestamp" in intent && ToFloat(intent["timestamp"]).Ok?
    ensures var g := EvaluateGatesSpec(intent, features, verdict, holdStartedTs, tauSeconds, s, priceReturns, nowTs, std).value.0;
            EmitIntent(intent, g, floatRepr).Ok? && EmitIntent(intent, g, floatRepr).value.Emitted?
  {
    ExecuteIff(intent, features, verdict, holdStartedTs, tauSeconds, s, priceReturns, nowTs, std);
    assert "asset" in Gate1Integrity.RequiredFields && "side" in Gate1Integrity.RequiredFields;
  }

  /**
   * Gate 1 only checks that a timestamp is present, so an executable decision
   * on an intent with `timestamp = None` raises `TypeError` at emission.
   */
  lemma NoneTimestampRaisesAtEmission(intent: Dict, gates: GatesResult, floatRepr: real -> string)
    requires gates.decision == EXECUTE
    requires "asset" in intent && "side" in intent && "amount" in intent && ToFloat(intent["amount"]).Ok?
    requires "timestamp" in intent && intent["timestamp"] == VNone
    ensures EmitIntent(intent, gates, floatRepr) == Raise(TypeError)
  {
  }
}
