/**
 * Gate 2 of the trading agent: the X-108 temporal rule at investment level.
 * The time since the last investment is checked first, then coherence. The
 * gate only reads the run state and has no notion of irreversibility.
 */
module Gate2Temporal {
  import opened Wrappers
  import opened TradingState

  /** `gate2_x108_temporal(state, now_ts, hold_seconds, coherence, coherence_threshold)`. */
  function Check(state: RunSnapshot, nowTs: real, holdSeconds: real, coherence: real, threshold: real): (g: GateResult)
    ensures g.ok <==> g == Pass
    ensures !g.ok ==> g.reason == "x108_hold" || g.reason == "x108_low_coherence"
  {
    var last := state.lastInvestTs.GetOr(0.0);
    var dt := nowTs - last;
    if dt < holdSeconds then GateResult(false, "x108_hold")
    else if coherence < threshold then GateResult(false, "x108_low_coherence")
    else Pass
  }

  /** The gate passes exactly when both boundaries are met, each inclusively. */
  lemma PassIff(state: RunSnapshot, nowTs: real, holdSeconds: real, coherence: real, threshold: real)
    ensures Check(state, nowTs, holdSeconds, coherence, threshold).ok
            <==> nowTs - state.lastInvestTs.GetOr(0.0) >= holdSeconds && coherence >= threshold
    ensures Check(state, nowTs, holdSeconds, coherence, threshold).ok
            <==> Check(state, nowTs, holdSeconds, coherence, threshold) == Pass
  {
  }

  /** The time rule is checked first: too early is `x108_hold` even when coherence is also low. */
  lemma HoldTakesPrecedence(state: RunSnapshot, nowTs: real, holdSeconds: real, coherence: real, threshold: real)
    requires nowTs - state.lastInvestTs.GetOr(0.0) < holdSeconds
    ensures Check(state, nowTs, holdSeconds, coherence, threshold) == GateResult(false, "x108_hold")
  {
  }

  /** Enough time but too little coherence is `x108_low_coherence`. */
  lemma LowCoherence(state: RunSnapshot, nowTs: real, holdSeconds: real, coherence: real, threshold: real)
    requires nowTs - state.lastInvestTs.GetOr(0.0) >= holdSeconds && coherence < threshold
    ensures Check(state, nowTs, holdSeconds, coherence, threshold) == GateResult(false, "x108_low_coherence")
  {
  }

  /** A clock earlier than the last investment always holds, for a non-negative hold. */
  lemma ClockSkewHolds(state: RunSnapshot, nowTs: real, holdSeconds: real, coherence: real, threshold: real)
    requires nowTs < state.lastInvestTs.GetOr(0.0) && holdSeconds >= 0.0
    ensures Check(state, nowTs, holdSeconds, coherence, threshold) == GateResult(false, "x108_hold")
  {
  }

  /** A state without `last_invest_ts` behaves as one whose last investment was at 0. */
  lemma MissingLastIsZero(state: RunSnapshot, nowTs: real, holdSeconds: real, coherence: real, threshold: real)
    requires state.lastInvestTs.None?
    ensures Check(state, nowTs, holdSeconds, coherence, threshold)
            == Check(state.(lastInvestTs := Some(0.0)), nowTs, holdSeconds, coherence, threshold)
  {
  }

  /** Only `last_invest_ts` is read: the other fields of the state never matter. */
  lemma ReadsOnlyLastInvest(s1: RunSnapshot, s2: RunSnapshot, nowTs: real, holdSeconds: real, coherence: real, threshold: real)
    requires s1.lastInvestTs == s2.lastInvestTs
    ensures Check(s1, nowTs, holdSeconds, coherence, threshold) == Check(s2, nowTs, holdSeconds, coherence, threshold)
  {
  }

  /** Waiting never turns a pass into a failure. */
  lemma MonotoneInTime(state: RunSnapshot, now1: real, now2: real, holdSeconds: real, coherence: real, threshold: real)
    requires now1 <= now2 && Check(state, now1, holdSeconds, coherence, threshold).ok
    ensures Check(state, now2, holdSeconds, coherence, threshold).ok
  {
  }
}
