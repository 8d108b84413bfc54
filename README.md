# X-108 governance core, modelled and verified in Dafny

X-108 is a governance layer for automated decisions, trading decisions in
particular. An irreversible action is held until a minimum time (tau, 108 s by
default in OS1) has passed since it was first seen. Around that temporal rule
the repository stacks further checks:

- validation, risk and ROI gates for a trading agent;
- a composition of gate verdicts with the precedence BLOCK > HOLD > ALLOW;
- a small sandboxed machine (OS0) with a structural contract;
- a request pipeline (OS1) that explains each decision;
- structural graph metrics (the structural core and OS2) that decide ACT or HOLD;
- the session and lock rules of the dashboard.

This project models that core in Dafny and proves what the code and its tests
promise about it.

The modules follow the program:

- `X108`: the OS1 temporal gate, with a check that returns ACT or HOLD, a wait and a reason.
- `TemporalOracle`: the copies of the rule `irreversible and elapsed < tau => HOLD` that the temporal test suites carry.
- `Composition`: the composition tests' fold over gate verdicts.
- `Gate1Integrity`, `Gate2Temporal`, `Gate3RiskKill`: the three trading gates.
  - Gate 3 includes the running-peak drawdown loop.
  - Gate 3 writes the cooldown into the run state, modelled as the class `TradingState.RunState`.
- `CorePipeline`: the application's simulation verdict, its fixed-priority gate evaluation and its ERC-8004 emission guard.
- `IntentRegistry`: the write-once first-seen registry of intents.
- `RoiPolicy`: the ROI state machine, a class whose decision updates its fields in place.
- `Backtest`: the backtest's step loop.
  - The specification functions are `Step` and `Loop`.
  - The in-place methods are `StepInPlace` through `RunBacktest`.
- `Score`: the linear decision score.
- `Features`: the coherence and friction clamps and the regime classification.
- `Erc8004`: the trade intent record.
- `Ir`, `Contract`, `Sandbox`, `Os1`: the OS0/OS1 machine.
  - `Ir` holds the node alphabet.
  - `Contract` is the structural validator.
  - `Sandbox` is the interpreter. The functional specification is `Execute`. The class `Sandbox.Sandbox` performs a run in place.
  - `Os1` is the request pipeline.
- `Structural`, `Os2`, `Matrix`, `Stats`: triangle and hexagon scores, weighted-degree asymmetry, core-fixed metrics and the threshold decision.
- `Human`, `Domains`, `Scenarios`, `SessionState`, `ConsoleLock`, `Convert`: the dashboard helpers.
  - `Human` covers the qualitative levels and the summary and explainer texts.
  - `Domains` is the domain table.
  - `Scenarios` covers scenario lookup and run parameters.
  - `SessionState` covers session invalidation.
  - `ConsoleLock` covers the guided-mode lock.
  - `Convert` is the pack converter's row normaliser and bounded extraction.
- `Wrappers`, `Values`, `Text`: shared support.
  - `Wrappers` holds `Option` and `Result`.
  - `Values` is the dynamically typed values of the dicts the code passes around.
  - `Text` holds the few `str` operations relied on.

## Conventions

- Floating-point numbers are modelled as exact reals.
- Python dicts are modelled as maps from strings to `Values.Value`.
- Each Python exception becomes a `Raise` result naming it:
  - `KeyError` for a missing key;
  - `TypeError` or `ValueError` for a failed `float(...)` or comparison;
  - `ZeroDivisionError`;
  - `AttributeError`;
  - `ERROR` of OS0, with its code.
- Callers are therefore never required to avoid the inputs the source handles, or fails on. The exception is the configuration of the trading agent: its settings arrive already converted (see the configuration records under "## Left out").
- Several things become parameters of the functions that use them:
  - `np.std`, wherever it is used;
  - `np.mean` in the features (`Features.RegimeFromReturns`, `Features.ExtractFeatures`). Elsewhere a mean is the exact `Stats.Mean`: the sum over the length, and 0 for an empty list. This includes the backtest's `np.mean(scores_window) if scores_window else 0.0`;
  - the converter's parsing of CSV cells as numbers;
  - `str()` rendering of values;
  - the iteration order of dict keys;
  - the clock;
  - the output of OS1's parser;
  - the file readers of the converter.
- `float()` of a text is `Text.ParseFloat`, a decimal grammar fixed by the model (see "## Left out").
- OS1's `RunRequest` takes a `Reading`:
  - `AsWritten` follows the code, including the two report faults listed under "## Findings";
  - `Intended` uses the corrected log rows and status line instead.

Where the source is inconsistent and the code is still used as written, the
model keeps that behaviour:

- `evaluate_gates` ignores its `hold_started_ts` argument.
- A DESTRUCTIVE simulation with a failing gate 2 yields HOLD.
- The t0 guard overwrites within its 1e-12 tolerance.
- A loop that needs exactly `max_iters` body runs raises R6.
- Contract violations alone never make OS1 reject.

Where that behaviour is evidently unintended, the corrected version is modelled too and listed under "## Findings".

## Model

| member | source | states |
|---|---|---|
| X108.X108Gate.Check | obsidia/MVP-obsidia--main/resources/proofs/X108_ADVANCED_TESTS_PACK/obsidia/forge_os01_x108_v1/src/obsidia_os1/x108.py:24-35 | an action is held exactly when it is irreversible and has waited less than the minimum; an allowed action waits 0; a hold waits a positive time that brings the elapsed time exactly to the minimum; a reversible action carries the bypass reason with the note |
| X108.NewGate | obsidia/MVP-obsidia--main/resources/proofs/X108_ADVANCED_TESTS_PACK/obsidia/forge_os01_x108_v1/src/obsidia_os1/x108.py:21-22 | a new gate has the given minimum wait, 108 s by default |
| X108.WaitingSuffices | obsidia/MVP-obsidia--main/resources/proofs/X108_ADVANCED_TESTS_PACK/obsidia/forge_os01_x108_v1/src/obsidia_os1/x108.py:28-35 | waiting the announced time always makes the same action pass |
| X108.CheckMonotone | obsidia/MVP-obsidia--main/resources/proofs/X108_ADVANCED_TESTS_PACK/obsidia/forge_os01_x108_v1/src/obsidia_os1/x108.py:26-35 | an allowed action stays allowed as time passes, and a pending wait shrinks by exactly the time that passed |
| X108.LongerMinimumIsStricter | obsidia/MVP-obsidia--main/resources/proofs/X108_ADVANCED_TESTS_PACK/obsidia/forge_os01_x108_v1/src/obsidia_os1/x108.py:21-35 | a gate with a larger minimum never allows an action that a gate with a smaller minimum holds |
| X108.ClockSkewHolds | obsidia/MVP-obsidia--main/resources/proofs/X108_ADVANCED_TESTS_PACK/obsidia/forge_os01_x108_v1/src/obsidia_os1/x108.py:28-35 | with a negative elapsed time an irreversible action is held and must wait longer than the minimum |
| X108.WaitNonNegative | obsidia/MVP-obsidia--main/resources/proofs/X108_ADVANCED_TESTS_PACK/obsidia/forge_os01_x108_v1/src/obsidia_os1/x108.py:24-35 | the announced wait is never negative |
| Gate1Integrity.Validate | obsidia/MVP-obsidia--main/resources/proofs/X108_ADVANCED_TESTS_PACK/trading/trading-agent-erc8004-x108/src/gates/gate1_integrity.py:3-14 | the gate itself: an answer that is not a raise passes exactly when it is `pass`, and `float()` raises only once every field is present and the side is valid; its properties are PassIffWellFormed, FirstFailureWins, CoherenceBoundsInclusive, ExtraKeysIgnored, SameAnswer, TimestampValueIgnored and EmptyIntentListsAllFields |
| Gate1Integrity.MissingOf | obsidia/MVP-obsidia--main/resources/proofs/X108_ADVANCED_TESTS_PACK/trading/trading-agent-erc8004-x108/src/gates/gate1_integrity.py:4 | the missing list holds exactly the required fields absent from the intent, and keeps them in the order of the field list (a subsequence of it) |
| Gate1Integrity.PassIffWellFormed | obsidia/MVP-obsidia--main/resources/proofs/X108_ADVANCED_TESTS_PACK/trading/trading-agent-erc8004-x108/src/gates/gate1_integrity.py:3-14 | the gate passes exactly the intents that have every required field, a side BUY or SELL, a positive amount and a coherence in [0, 1]; the reason is "pass" exactly when the gate passes |
| Gate1Integrity.FirstFailureWins | obsidia/MVP-obsidia--main/resources/proofs/X108_ADVANCED_TESTS_PACK/trading/trading-agent-erc8004-x108/src/gates/gate1_integrity.py:4-11 | missing fields are reported first, with the missing names joined by commas; then a bad side; then a non-positive amount |
| Gate1Integrity.CoherenceBoundsInclusive | obsidia/MVP-obsidia--main/resources/proofs/X108_ADVANCED_TESTS_PACK/trading/trading-agent-erc8004-x108/src/gates/gate1_integrity.py:12-14 | for an otherwise valid intent the gate passes exactly when the coherence lies in the closed interval [0, 1], and otherwise refuses it for its coherence |
| Gate1Integrity.ExtraKeysIgnored | obsidia/MVP-obsidia--main/resources/proofs/X108_ADVANCED_TESTS_PACK/trading/trading-agent-erc8004-x108/src/gates/gate1_integrity.py:3-14 | two intents that agree on the five required fields get the same answer |
| Gate1Integrity.SameAnswer | obsidia/MVP-obsidia--main/resources/proofs/X108_ADVANCED_TESTS_PACK/trading/trading-agent-erc8004-x108/src/gates/gate1_integrity.py:8-14 | once the same fields are missing, only side, amount and coherence decide the answer |
| Gate1Integrity.TimestampValueIgnored | obsidia/MVP-obsidia--main/resources/proofs/X108_ADVANCED_TESTS_PACK/trading/trading-agent-erc8004-x108/src/gates/gate1_integrity.py:1-14 | the timestamp must be present but its value never changes the answer |
| Gate1Integrity.EmptyIntentListsAllFields | obsidia/MVP-obsidia--main/resources/proofs/X108_ADVANCED_TESTS_PACK/trading/trading-agent-erc8004-x108/src/gates/gate1_integrity.py:4-6 | an empty intent is refused with all five field names in declaration order |
| Gate2Temporal.Check | obsidia/MVP-obsidia--main/resources/proofs/X108_ADVANCED_TESTS_PACK/trading/trading-agent-erc8004-x108/src/gates/gate2_x108_temporal.py:1-8 | the gate itself: it passes exactly when it answers `pass`, and otherwise refuses with `x108_hold` or `x108_low_coherence`; its properties are PassIff, HoldTakesPrecedence, LowCoherence, ClockSkewHolds, MissingLastIsZero, ReadsOnlyLastInvest and MonotoneInTime |
| Gate2Temporal.PassIff | obsidia/MVP-obsidia--main/resources/proofs/X108_ADVANCED_TESTS_PACK/trading/trading-agent-erc8004-x108/src/gates/gate2_x108_temporal.py:1-8 | the gate passes exactly when the time since the last investment (0 when absent) reaches the hold and the coherence reaches the threshold, both inclusively; it passes exactly when it answers "pass" |
| Gate2Temporal.HoldTakesPrecedence | obsidia/MVP-obsidia--main/resources/proofs/X108_ADVANCED_TESTS_PACK/trading/trading-agent-erc8004-x108/src/gates/gate2_x108_temporal.py:3-5 | too early is reported as `x108_hold` whatever the coherence |
| Gate2Temporal.LowCoherence | obsidia/MVP-obsidia--main/resources/proofs/X108_ADVANCED_TESTS_PACK/trading/trading-agent-erc8004-x108/src/gates/gate2_x108_temporal.py:4-7 | enough time but too little coherence is reported as `x108_low_coherence` |
| Gate2Temporal.ClockSkewHolds | obsidia/MVP-obsidia--main/resources/proofs/X108_ADVANCED_TESTS_PACK/trading/trading-agent-erc8004-x108/src/gates/gate2_x108_temporal.py:2-5 | a clock behind the last investment always holds when the hold is not negative |
| Gate2Temporal.MissingLastIsZero | obsidia/MVP-obsidia--main/resources/proofs/X108_ADVANCED_TESTS_PACK/trading/trading-agent-erc8004-x108/src/gates/gate2_x108_temporal.py:2 | a missing `last_invest_ts` behaves as a last investment at time 0 |
| Gate2Temporal.ReadsOnlyLastInvest | obsidia/MVP-obsidia--main/resources/proofs/X108_ADVANCED_TESTS_PACK/trading/trading-agent-erc8004-x108/src/gates/gate2_x108_temporal.py:1-8 | only `last_invest_ts` of the state is read |
| Gate2Temporal.MonotoneInTime | obsidia/MVP-obsidia--main/resources/proofs/X108_ADVANCED_TESTS_PACK/trading/trading-agent-erc8004-x108/src/gates/gate2_x108_temporal.py:2-8 | waiting longer never turns a pass into a refusal |
| Gate3RiskKill.Peak | MVP-obsidia--main/resources/proofs/X108_ADVANCED_TESTS_PACK/trading/trading-agent-erc8004-x108/src/gates/gate3_risk_killswitch.py:4-7 | the running peak of a non-empty curve is at least every point and is one of the points |
| Gate3RiskKill.ComputeDrawdown | MVP-obsidia--main/resources/proofs/X108_ADVANCED_TESTS_PACK/trading/trading-agent-erc8004-x108/src/gates/gate3_risk_killswitch.py:3-10 | the loop over the curve returns the maximum drawdown of the curve, raising ZeroDivisionError where a zero peak makes the division fail |
| Gate3RiskKill.RaiseIsFinal | MVP-obsidia--main/resources/proofs/X108_ADVANCED_TESTS_PACK/trading/trading-agent-erc8004-x108/src/gates/gate3_risk_killswitch.py:6-9 | once a prefix of the curve divides by a zero peak, the whole curve raises the same way |
| Gate3RiskKill.DrawdownNonNegative | MVP-obsidia--main/resources/proofs/X108_ADVANCED_TESTS_PACK/trading/trading-agent-erc8004-x108/src/gates/gate3_risk_killswitch.py:5-10 | a computed drawdown is never negative |
| Gate3RiskKill.PositiveCurveBelowOne | MVP-obsidia--main/resources/proofs/X108_ADVANCED_TESTS_PACK/trading/trading-agent-erc8004-x108/src/gates/gate3_risk_killswitch.py:3-10 | a curve of positive values never raises and its drawdown is below 1 |
| Gate3RiskKill.NonDecreasingHasNoDrawdown | MVP-obsidia--main/resources/proofs/X108_ADVANCED_TESTS_PACK/trading/trading-agent-erc8004-x108/src/gates/gate3_risk_killswitch.py:3-10 | a curve that never falls and never touches 0 has drawdown 0 |
| Gate3RiskKill.DrawdownIsMaximum | MVP-obsidia--main/resources/proofs/X108_ADVANCED_TESTS_PACK/trading/trading-agent-erc8004-x108/src/gates/gate3_risk_killswitch.py:6-10 | the drawdown is at least the drawdown at every point against its running peak, and equals one of them unless it is 0 |
| Gate3RiskKill.LastN | MVP-obsidia--main/resources/proofs/X108_ADVANCED_TESTS_PACK/trading/trading-agent-erc8004-x108/src/gates/gate3_risk_killswitch.py:16 | `xs[-n:]` is the last `n` elements, or all of them when there are fewer |
| Gate3RiskKill.Volatility | MVP-obsidia--main/resources/proofs/X108_ADVANCED_TESTS_PACK/trading/trading-agent-erc8004-x108/src/gates/gate3_risk_killswitch.py:16 | without returns the volatility is 0 |
| Gate3RiskKill.RiskKill | MVP-obsidia--main/resources/proofs/X108_ADVANCED_TESTS_PACK/trading/trading-agent-erc8004-x108/src/gates/gate3_risk_killswitch.py:12-32 | the gate on a state snapshot: it raises exactly when the drawdown of the curve (default [1.0]) raises; a pass answers `pass` and leaves the state, a refusal leaves it or arms the cooldown; its properties are Precedence, WritesOnlyCooldown, KillThenCooldown, CoolingDownRefuses and MissingCurveHasNoDrawdown |
| Gate3RiskKill.Check | MVP-obsidia--main/resources/proofs/X108_ADVANCED_TESTS_PACK/trading/trading-agent-erc8004-x108/src/gates/gate3_risk_killswitch.py:12-32 | the gate's answer and the new state are those of the specification: a raising drawdown leaves the state unchanged; a kill writes the cooldown; nothing else changes |
| Gate3RiskKill.Precedence | MVP-obsidia--main/resources/proofs/X108_ADVANCED_TESTS_PACK/trading/trading-agent-erc8004-x108/src/gates/gate3_risk_killswitch.py:20-32 | the reason is fixed by the first rule that trips: cooldown, then drawdown, volatility and losses, each threshold inclusive; the gate passes exactly when it answers "pass" |
| Gate3RiskKill.WritesOnlyCooldown | MVP-obsidia--main/resources/proofs/X108_ADVANCED_TESTS_PACK/trading/trading-agent-erc8004-x108/src/gates/gate3_risk_killswitch.py:20-32 | a kill sets exactly `cooldown_remaining` to the configured steps; a cooldown refusal and a pass leave the state unchanged |
| Gate3RiskKill.KillThenCooldown | MVP-obsidia--main/resources/proofs/X108_ADVANCED_TESTS_PACK/trading/trading-agent-erc8004-x108/src/gates/gate3_risk_killswitch.py:20-25 | after a kill with a positive cooldown the next call is refused with `cooldown` and changes nothing |
| Gate3RiskKill.CoolingDownRefuses | MVP-obsidia--main/resources/proofs/X108_ADVANCED_TESTS_PACK/trading/trading-agent-erc8004-x108/src/gates/gate3_risk_killswitch.py:18-21 | while the cooldown is positive the gate refuses with `cooldown` and leaves the state as it was |
| Gate3RiskKill.MissingCurveHasNoDrawdown | MVP-obsidia--main/resources/proofs/X108_ADVANCED_TESTS_PACK/trading/trading-agent-erc8004-x108/src/gates/gate3_risk_killswitch.py:14-15 | the default curve [1.0] has drawdown 0 |
| Composition.Join | MVP-obsidia--main/resources/proofs/X108_ADVANCED_TESTS_PACK/obsidia/tests_compositionality/test_composition.py:5 | the join of two verdicts is one of them, the one with the higher precedence in BLOCK > HOLD > ALLOW |
| Composition.Outcomes | MVP-obsidia--main/resources/proofs/X108_ADVANCED_TESTS_PACK/obsidia/tests_compositionality/test_composition.py:7-8 | each gate is asked with the same context, in order |
| Composition.Combine | MVP-obsidia--main/resources/proofs/X108_ADVANCED_TESTS_PACK/obsidia/tests_compositionality/test_composition.py:4-13 | definition of the composed outcome; its properties are CombineIsStrongest, BlockIffSomeGateBlocks, AllowIffAllAllow, HoldRulesOutAllow, OrderDoesNotMatter and CombineNested |
| Composition.ComposeGates | MVP-obsidia--main/resources/proofs/X108_ADVANCED_TESTS_PACK/obsidia/tests_compositionality/test_composition.py:4-13 | the loop returns the composition of the gates' answers: the first raise or BLOCK stops it, otherwise any HOLD wins over ALLOW |
| Composition.CombineIsStrongest | MVP-obsidia--main/resources/proofs/X108_ADVANCED_TESTS_PACK/obsidia/tests_compositionality/test_composition.py:4-13 | when no gate raises, the composition is the strongest verdict any gate gave |
| Composition.BlockIffSomeGateBlocks | MVP-obsidia--main/resources/proofs/X108_ADVANCED_TESTS_PACK/obsidia/tests_compositionality/test_composition.py:9-10 | the composition blocks exactly when some gate blocks and no gate before it raised |
| Composition.AllowIffAllAllow | MVP-obsidia--main/resources/proofs/X108_ADVANCED_TESTS_PACK/obsidia/tests_compositionality/test_composition.py:50-60 | the composition allows exactly when every gate allows |
| Composition.HoldRulesOutAllow | MVP-obsidia--main/resources/proofs/X108_ADVANCED_TESTS_PACK/obsidia/tests_compositionality/test_composition.py:11-13 | one HOLD anywhere rules out ALLOW |
| Composition.OrderDoesNotMatter | MVP-obsidia--main/resources/proofs/X108_ADVANCED_TESTS_PACK/obsidia/tests_compositionality/test_composition.py:4-13 | for gates that do not raise, asking them in another order gives the same composition |
| Composition.CombineNested | MVP-obsidia--main/resources/proofs/X108_ADVANCED_TESTS_PACK/obsidia/tests_compositionality/test_composition.py:4-13 | composing a composed stack as one gate, followed by more gates, equals composing the flat stack |
| Composition.TemporalGatesAgreeWhenDefined | obsidia/MVP-obsidia--main/resources/proofs/X108_ADVANCED_TESTS_PACK/obsidia/tests_advanced/test_composition_monotonicity.py:13-17 | the eager temporal gate and the short-circuiting one give the same verdict whenever neither raises |
| Composition.EagerGateNeedsClock | obsidia/MVP-obsidia--main/resources/proofs/X108_ADVANCED_TESTS_PACK/obsidia/tests_advanced/test_composition_monotonicity.py:14 | a reversible action without clock readings passes the short-circuiting gate but makes the eager one raise a KeyError on `now` |
| Composition.NonAnticipation | obsidia/MVP-obsidia--main/resources/proofs/X108_ADVANCED_TESTS_PACK/obsidia/tests_advanced/test_composition_monotonicity.py:26-40 | before tau an irreversible action composed with the score and contract gates is held, with either temporal gate |
| Composition.BlockDominates | MVP-obsidia--main/resources/proofs/X108_ADVANCED_TESTS_PACK/obsidia/tests_compositionality/test_composition.py:38-48 | a failed contract blocks the suite's stack whatever the clock and the score |
| Composition.AllAllow | MVP-obsidia--main/resources/proofs/X108_ADVANCED_TESTS_PACK/obsidia/tests_compositionality/test_composition.py:50-60 | a reversible action with score 1.0 and a valid contract is allowed |
| IntentRegistry.Accepts | obsidia/MVP-obsidia--main/resources/proofs/X108_ADVANCED_TESTS_PACK/trading/tests_advanced/test_t0_jitter_guard.py:10-16 | definition of when `set_first_seen` succeeds: a new intent, or a t0 within 1e-12 of the stored one; its properties are FirstCallRecords, RepeatIsIdempotent, MoveIsRefused and AsWrittenT0Drifts |
| IntentRegistry.Recorded | obsidia/MVP-obsidia--main/resources/proofs/X108_ADVANCED_TESTS_PACK/trading/tests_advanced/test_t0_jitter_guard.py:10-16 | an accepted call stores the new t0 for the intent; a refused call stores nothing |
| IntentRegistry.RecordedOnce | obsidia/MVP-obsidia--main/resources/proofs/X108_ADVANCED_TESTS_PACK/trading/tests_advanced/test_t0_jitter_guard.py:6 | the write-once variant keeps a recorded t0 and only records an intent seen for the first time |
| IntentRegistry.IntentMemoryGuard.constructor | obsidia/MVP-obsidia--main/resources/proofs/X108_ADVANCED_TESTS_PACK/trading/tests_advanced/test_t0_jitter_guard.py:7-8 | a new guard has no recorded intents |
| IntentRegistry.IntentMemoryGuard.SetFirstSeen | obsidia/MVP-obsidia--main/resources/proofs/X108_ADVANCED_TESTS_PACK/trading/tests_advanced/test_t0_jitter_guard.py:10-16 | the answer is true exactly when the intent is new or the new t0 is within 1e-12 of the stored one, and the stored times become those of `Recorded` |
| IntentRegistry.IntentMemoryGuard.SetFirstSeenOnce | obsidia/MVP-obsidia--main/resources/proofs/X108_ADVANCED_TESTS_PACK/trading/tests_advanced/test_t0_jitter_guard.py:6-16 | the same answer as `set_first_seen`, with the stored times of the write-once variant |
| IntentRegistry.FirstCallRecords | obsidia/MVP-obsidia--main/resources/proofs/X108_ADVANCED_TESTS_PACK/trading/tests_advanced/test_t0_jitter_guard.py:18-22 | the first call for an intent succeeds and records its t0 |
| IntentRegistry.RepeatIsIdempotent | obsidia/MVP-obsidia--main/resources/proofs/X108_ADVANCED_TESTS_PACK/trading/tests_advanced/test_t0_jitter_guard.py:18-23 | repeating an accepted t0 succeeds again and changes nothing |
| IntentRegistry.MoveIsRefused | obsidia/MVP-obsidia--main/resources/proofs/X108_ADVANCED_TESTS_PACK/trading/tests_advanced/test_t0_jitter_guard.py:25-39 | moving a recorded t0 backward or forward by more than 1e-12 is refused and stores nothing |
| IntentRegistry.OtherIntentsUntouched | obsidia/MVP-obsidia--main/resources/proofs/X108_ADVANCED_TESTS_PACK/trading/tests_advanced/test_t0_jitter_guard.py:10-16 | a call never changes the entries of other intents |
| IntentRegistry.AsWrittenT0Drifts | obsidia/MVP-obsidia--main/resources/proofs/X108_ADVANCED_TESTS_PACK/trading/tests_advanced/test_t0_jitter_guard.py:13-15 | as written, the calls 0, 1e-12, 2e-12 are all accepted and leave t0 at 2e-12, a move of 2e-12 that a single call would have refused |
| IntentRegistry.RecordedOnceNeverMoves | obsidia/MVP-obsidia--main/resources/proofs/X108_ADVANCED_TESTS_PACK/trading/tests_advanced/test_t0_jitter_guard.py:6 | with the write-once guard no run of calls ever moves a recorded t0 |
| TemporalOracle.GateAgreesWithOracle | obsidia/MVP-obsidia--main/resources/proofs/X108_ADVANCED_TESTS_PACK/trading/tests_advanced/test_fuzz_oracle.py:4-22 | the OS1 gate with minimum wait tau answers ACT exactly when the oracle T(tau) allows and HOLD exactly when it holds, on every input |
| TemporalOracle.ReversibleAllowed | MVP-obsidia--main/resources/proofs/X108_ADVANCED_TESTS_PACK/obsidia/tests_temporal/test_idempotence.py:4-7 | a reversible action is never held |
| TemporalOracle.NegativeElapsedHolds | MVP-obsidia--main/resources/proofs/X108_ADVANCED_TESTS_PACK/trading/tests_temporal_strong/test_clock_skew.py:4-15 | a clock that went backwards holds an irreversible action, for a non-negative tau |
| TemporalOracle.HoldsStrictlyBeforeTau | obsidia/MVP-obsidia--main/resources/proofs/X108_ADVANCED_TESTS_PACK/trading/tests_temporal_strong/test_strong_monotonicity.py:11-25 | every moment strictly before tau holds an irreversible action |
| TemporalOracle.AllowsFromTau | MVP-obsidia--main/resources/proofs/X108_ADVANCED_TESTS_PACK/trading/tests_temporal_strong/test_clock_skew.py:24-30 | at tau and after, an irreversible action is allowed |
| TemporalOracle.MonotoneInTime | obsidia/MVP-obsidia--main/resources/proofs/X108_ADVANCED_TESTS_PACK/trading/tests_temporal/test_monotonicity.py:9-18 | as the clock moves forward HOLD never follows ALLOW |
| TemporalOracle.ShiftInvariant | MVP-obsidia--main/resources/proofs/X108_ADVANCED_TESTS_PACK/obsidia/tests_temporal/test_idempotence.py:4-7 | the decision depends on the clock readings only through their difference |
| TemporalOracle.SuiteCases | obsidia/MVP-obsidia--main/resources/proofs/X108_ADVANCED_TESTS_PACK/trading/tests_temporal/test_monotonicity.py:20-25 | the concrete cases of the suites with tau = 10: skew of -5 and tau - 1e-9 hold, tau and tau + 0.001 allow, tau - 0.001 and 3 hold, tau + 1 allows |
| Erc8004.TradeIntent.AsDict | MVP-obsidia--main/resources/proofs/X108_ADVANCED_TESTS_PACK/trading_agent/trading-agent-erc8004-x108/src/execution/erc8004.py:25 | `asdict` gives exactly the seven field names as keys |
| Erc8004.BuildTradeIntent | MVP-obsidia--main/resources/proofs/X108_ADVANCED_TESTS_PACK/trading_agent/trading-agent-erc8004-x108/src/execution/erc8004.py:15-25 | the build succeeds exactly when amount and timestamp convert with `float()`, raising the amount's error first; the standard is "ERC-8004" and the version "0.1"; asset and side are stored unchecked; the converted numbers are stored; a missing metadata becomes an empty dict |
| Erc8004.FloatsCopied | MVP-obsidia--main/resources/proofs/X108_ADVANCED_TESTS_PACK/trading_agent/trading-agent-erc8004-x108/src/execution/erc8004.py:15-25 | float amount and timestamp are copied exactly, whatever the side |
| Features.Clamp01 | MVP-obsidia--main/src/features/features.py:12 | the clamp lies in [0, 1], is the identity on [0, 1] and sends values below 0 to 0 and above 1 to 1 |
| Features.Suffix | MVP-obsidia--main/src/features/features.py:8 | `returns[-window:]` is a suffix: the whole series for a window of 0 or longer than the series, otherwise exactly `window` elements |
| Features.RealizedVol | MVP-obsidia--main/src/features/features.py:3-8 | 0 without returns; the deviation of all returns when there are fewer than the window; otherwise the deviation of the last `window` returns |
| Features.CoherenceFromVol | MVP-obsidia--main/src/features/features.py:10-12 | coherence lies in [0, 1]; it is 1 exactly for a non-positive volatility and 0 exactly from a volatility of 0.1 |
| Features.FrictionFromVol | MVP-obsidia--main/src/features/features.py:14-15 | friction lies in [0, 1]; it is 0 exactly for a non-positive volatility and 1 exactly from a volatility of 0.1 |
| Features.CoherencePlusFriction | MVP-obsidia--main/src/features/features.py:10-15 | coherence and friction always add up to 1 |
| Features.MonotoneInVol | MVP-obsidia--main/src/features/features.py:10-15 | more volatility never raises coherence and never lowers friction |
| Features.Classify | MVP-obsidia--main/src/features/features.py:17-28 | unknown exactly for fewer than 2 returns; otherwise trend up exactly above z = 0.2, trend down exactly below -0.2, range in between, bounds inclusive |
| Features.RegimeCases | MVP-obsidia--main/src/features/features.py:17-28 | a series of fewer than 2 returns is exactly the case that answers unknown; a longer series with a non-negative deviation never raises, since the denominator is then at least 1e-12 |
| Features.ExtractFeatures | MVP-obsidia--main/src/features/features.py:30-37 | coherence and friction lie in [0, 1] and add up to 1; volatility is over 20 returns and the regime over 50 |
| Features.NoReturnsIsCalm | MVP-obsidia--main/src/features/features.py:30-37 | without returns the features are volatility 0, coherence 1, friction 0 and an unknown regime |
| Score.ComputeScore | MVP-obsidia--main/resources/proofs/X108_ADVANCED_TESTS_PACK/trading/trading-agent-erc8004-x108/src/score/score.py:1-29 | the score: a result that is not a raise read valid weights and a coherence and friction that convert with `float()`; its properties are ComputeScoreIsLinear, MissingKeysAreZero, DdThresholdIgnored, TextProjectionRaises and ScoreMonotone |
| Score.ScoreMonotone | MVP-obsidia--main/resources/proofs/X108_ADVANCED_TESTS_PACK/trading/trading-agent-erc8004-x108/src/score/score.py:22-28 | with non-negative weights the score never decreases with more return, coherence or bonus, and never increases with more sigma, drawdown or ruin probability or friction |
| Score.EmptyWeightsAreDefault | MVP-obsidia--main/resources/proofs/X108_ADVANCED_TESTS_PACK/trading/trading-agent-erc8004-x108/src/score/score.py:13-19 | an empty weights dict gives the weights 1, 1, 1, 1, 0.25, 0.25, 0.5 |
| Score.ComputeScoreIsLinear | MVP-obsidia--main/resources/proofs/X108_ADVANCED_TESTS_PACK/trading/trading-agent-erc8004-x108/src/score/score.py:1-29 | with float inputs the score is exactly the weighted linear formula, the friction entering as `1 - friction` |
| Score.MissingKeysAreZero | MVP-obsidia--main/resources/proofs/X108_ADVANCED_TESTS_PACK/trading/trading-agent-erc8004-x108/src/score/score.py:3-11 | missing projected and feature keys count as 0 |
| Score.DdThresholdIgnored | MVP-obsidia--main/resources/proofs/X108_ADVANCED_TESTS_PACK/trading/trading-agent-erc8004-x108/src/score/score.py:1 | the drawdown threshold argument never changes the score |
| Score.TextProjectionRaises | MVP-obsidia--main/resources/proofs/X108_ADVANCED_TESTS_PACK/trading/trading-agent-erc8004-x108/src/score/score.py:3-22 | a string in place of a projected number makes the arithmetic raise TypeError |
| RoiPolicy.NearestIndex | MVP-obsidia--main/resources/proofs/X108_ADVANCED_TESTS_PACK/trading_agent/trading-agent-erc8004-x108/src/roi_policy/roi.py:53 | the index is a valid rung whose distance to the current level is minimal, and every earlier rung is strictly farther (the first rung wins a tie) |
| RoiPolicy.RoiDecide | MVP-obsidia--main/resources/proofs/X108_ADVANCED_TESTS_PACK/trading_agent/trading-agent-erc8004-x108/src/roi_policy/roi.py:21-63 | the policy on a snapshot: it raises only with an empty risk ladder (`ValueError`), the new state is in safe mode exactly when the old one was or the reason is a kill, NOOP and HOLD_SAFE leave the state, and the risk level stays or moves to a rung of the ladder; its properties are KillExitsToSafeMode, SafeModeIsAbsorbing, OnlyKillEntersSafeMode, CooldownIsNoop, PassiveActionsLeaveState, ChangeStrategyToggles and RiskStepMovesOneRung |
| RoiPolicy.KillExitsToSafeMode | MVP-obsidia--main/resources/proofs/X108_ADVANCED_TESTS_PACK/trading_agent/trading-agent-erc8004-x108/src/roi_policy/roi.py:29-32 | a kill reason always exits to safe mode and records the step, changing nothing else |
| RoiPolicy.SafeModeIsAbsorbing | MVP-obsidia--main/resources/proofs/X108_ADVANCED_TESTS_PACK/trading_agent/trading-agent-erc8004-x108/src/roi_policy/roi.py:34-36 | safe mode is never cleared, and without a kill it answers HOLD_SAFE with the state unchanged |
| RoiPolicy.OnlyKillEntersSafeMode | MVP-obsidia--main/resources/proofs/X108_ADVANCED_TESTS_PACK/trading_agent/trading-agent-erc8004-x108/src/roi_policy/roi.py:28-63 | outside safe mode, the new state is in safe mode exactly when the gate 3 reason is a kill |
| RoiPolicy.CooldownIsNoop | MVP-obsidia--main/resources/proofs/X108_ADVANCED_TESTS_PACK/trading_agent/trading-agent-erc8004-x108/src/roi_policy/roi.py:38-40 | inside the cooldown nothing happens |
| RoiPolicy.PassiveActionsLeaveState | MVP-obsidia--main/resources/proofs/X108_ADVANCED_TESTS_PACK/trading_agent/trading-agent-erc8004-x108/src/roi_policy/roi.py:21-63 | NOOP and HOLD_SAFE leave the state unchanged; every other action records the step |
| RoiPolicy.ChangeStrategyToggles | MVP-obsidia--main/resources/proofs/X108_ADVANCED_TESTS_PACK/trading_agent/trading-agent-erc8004-x108/src/roi_policy/roi.py:42-48 | a strategy change needs a non-negative mean score, toggles base and alt (anything else becomes base), moves both step markers and keeps the risk level |
| RoiPolicy.RiskStepMovesOneRung | MVP-obsidia--main/resources/proofs/X108_ADVANCED_TESTS_PACK/trading_agent/trading-agent-erc8004-x108/src/roi_policy/roi.py:50-61 | a risk step needs a non-empty ladder and moves exactly one rung up (mean above 0.1) or down (mean below -0.1) from the nearest rung; the new level is a rung and the strategy is kept |
| RoiPolicy.RoiState.Init | MVP-obsidia--main/resources/proofs/X108_ADVANCED_TESTS_PACK/trading_agent/trading-agent-erc8004-x108/src/roi_policy/roi.py:12-19 | a new state has the default risk level, strategy "base", both markers at -10**9 and safe mode off |
| RoiPolicy.RoiState.Decide | MVP-obsidia--main/resources/proofs/X108_ADVANCED_TESTS_PACK/trading_agent/trading-agent-erc8004-x108/src/roi_policy/roi.py:21-63 | the action and the fields assigned in place are those of the specification; with an empty ladder the risk step raises ValueError and the state is unchanged |
| CorePipeline.VerdictOf | obsidia/MVP-obsidia--main/src/core_pipeline.py:34-40 | DESTRUCTIVE exactly when ruin is above 0.10 or drawdown above 0.25; UNCERTAIN exactly when neither, but ruin above 0.05 or drawdown above 0.15; OK exactly otherwise |
| CorePipeline.VerdictMonotone | obsidia/MVP-obsidia--main/src/core_pipeline.py:34-40 | a riskier projection never gets a milder verdict |
| CorePipeline.Compose | obsidia/MVP-obsidia--main/src/core_pipeline.py:88-118 | the gate answers are copied and exactly one law is recorded; gate 1 then gate 3 block with their own reasons, then gate 2 holds, then a destructive projection blocks; the decision is EXECUTE exactly when all three gates pass and the projection is not destructive, with reason "pass" |
| CorePipeline.DestructiveUnderHoldIsHold | obsidia/MVP-obsidia--main/src/core_pipeline.py:98-105 | a destructive projection under a temporal hold is reported as a hold |
| CorePipeline.Gate2OnValueAgrees | obsidia/MVP-obsidia--main/src/core_pipeline.py:71-77 | with a numeric coherence the call is gate 2 itself; too early, the coherence value is never looked at |
| CorePipeline.EvaluateGatesSpec | obsidia/MVP-obsidia--main/src/core_pipeline.py:54-132 | `evaluate_gates` on a snapshot: a result that is not a raise passed gate 1 without raising, and its state is the old one or the old one with the cooldown of 10 steps armed; its properties are HoldStartedIgnored, ExecuteIff and KillArmsCooldownUnderGate1Block |
| CorePipeline.EvaluateGates | obsidia/MVP-obsidia--main/src/core_pipeline.py:54-132 | the answer and the new run state are those of the specification: the three gates run in order 1, 2, 3, a raise leaves the state unchanged, and the state is what gate 3 leaves |
| CorePipeline.HoldStartedIgnored | obsidia/MVP-obsidia--main/src/core_pipeline.py:58 | the decision never depends on `hold_started_ts` |
| CorePipeline.ExecuteIff | obsidia/MVP-obsidia--main/src/core_pipeline.py:88-109 | the decision is EXECUTE exactly when the intent is well formed, gates 2 and 3 pass and the projection is not destructive |
| CorePipeline.KillArmsCooldownUnderGate1Block | obsidia/MVP-obsidia--main/src/core_pipeline.py:86-93 | gate 3 runs even when gate 1 blocks: a malformed intent is blocked for its own reason while a kill still arms the cooldown of 10 steps |
| CorePipeline.EmitIntent | obsidia/MVP-obsidia--main/src/core_pipeline.py:134-152 | anything but EXECUTE is refused with a message naming the decision; an emitted intent copies asset and side and carries the gates result and `run_ref` in its metadata; a missing asset raises KeyError |
| CorePipeline.ExecutedIntentIsEmitted | obsidia/MVP-obsidia--main/src/core_pipeline.py:140-152 | an executable decision on an intent whose timestamp converts is always emitted |
| CorePipeline.NoneTimestampRaisesAtEmission | obsidia/MVP-obsidia--main/src/core_pipeline.py:143-152 | gate 1 only checks that a timestamp is present, so an executable intent with `timestamp = None` raises TypeError at emission |
| Backtest.Tick | obsidia/MVP-obsidia--main/resources/proofs/X108_ADVANCED_TESTS_PACK/trading/trading-agent-erc8004-x108/scripts/run_backtest.py:51-52 | a missing cooldown raises KeyError; otherwise the cooldown drops by one when positive and nothing else changes |
| Backtest.NonNegativePart | obsidia/MVP-obsidia--main/resources/proofs/X108_ADVANCED_TESTS_PACK/trading/trading-agent-erc8004-x108/scripts/run_backtest.py:73 | the amount is at least zero and at least the risk level, and is one of the two |
| Backtest.CandidateValidation | obsidia/MVP-obsidia--main/resources/proofs/X108_ADVANCED_TESTS_PACK/trading/trading-agent-erc8004-x108/scripts/run_backtest.py:72-86 | gate 1 on the candidate the loop builds never raises and refuses only a non-positive amount or a coherence outside [0, 1] |
| Backtest.RaisePersists | obsidia/MVP-obsidia--main/resources/proofs/X108_ADVANCED_TESTS_PACK/trading/trading-agent-erc8004-x108/scripts/run_backtest.py:49 | once a step raises, every later prefix of the loop raises the same error |
| Backtest.OkPrefix | obsidia/MVP-obsidia--main/resources/proofs/X108_ADVANCED_TESTS_PACK/trading/trading-agent-erc8004-x108/scripts/run_backtest.py:49 | a run that does not raise extends the run one step shorter by exactly that step's log entry |
| Backtest.OneLogPerStep | obsidia/MVP-obsidia--main/resources/proofs/X108_ADVANCED_TESTS_PACK/trading/trading-agent-erc8004-x108/scripts/run_backtest.py:49 | a run up to step n that does not raise has one log entry per step from 60 |
| Backtest.LoopPreserves | obsidia/MVP-obsidia--main/resources/proofs/X108_ADVANCED_TESTS_PACK/trading/trading-agent-erc8004-x108/scripts/run_backtest.py:49 | a property of the carried state that every step keeps holds after the loop |
| Backtest.LoopAbsorbs | obsidia/MVP-obsidia--main/resources/proofs/X108_ADVANCED_TESTS_PACK/trading/trading-agent-erc8004-x108/scripts/run_backtest.py:49 | a property that every step keeps, and under which every step logs property out, keeps holding and every later entry has out |
| Backtest.TickKeepsCooldown | obsidia/MVP-obsidia--main/resources/proofs/X108_ADVANCED_TESTS_PACK/trading/trading-agent-erc8004-x108/scripts/run_backtest.py:51-52 | the ticked cooldown stays non-negative, drops by exactly one while positive and leaves the record unchanged at zero |
| Backtest.ProceedKeepsHealthy | obsidia/MVP-obsidia--main/resources/proofs/X108_ADVANCED_TESTS_PACK/trading/trading-agent-erc8004-x108/scripts/run_backtest.py:110-150 | execution keeps the records whole: every key present, the cooldown non-negative, the equity curve ending at the equity |
| Backtest.GuardKeepsHealthy | obsidia/MVP-obsidia--main/resources/proofs/X108_ADVANCED_TESTS_PACK/trading/trading-agent-erc8004-x108/scripts/run_backtest.py:100-150 | gate 3, the ROI policy and execution keep the records whole when a kill arms a non-negative cooldown |
| Backtest.StepKeepsHealthy | obsidia/MVP-obsidia--main/resources/proofs/X108_ADVANCED_TESTS_PACK/trading/trading-agent-erc8004-x108/scripts/run_backtest.py:49-150 | a step that does not raise keeps the records whole, with at most 100 scores in the window |
| Backtest.RunIsHealthy | obsidia/MVP-obsidia--main/resources/proofs/X108_ADVANCED_TESTS_PACK/trading/trading-agent-erc8004-x108/scripts/run_backtest.py:35-150 | after any number of steps, a run that does not raise has whole records |
| Backtest.GateOneFirst | obsidia/MVP-obsidia--main/resources/proofs/X108_ADVANCED_TESTS_PACK/trading/trading-agent-erc8004-x108/scripts/run_backtest.py:82-86 | a candidate that gate 1 refuses ends the step with only the cooldown ticked and gate 1's reason logged |
| Backtest.ExecutedBookkeeping | obsidia/MVP-obsidia--main/resources/proofs/X108_ADVANCED_TESTS_PACK/trading/trading-agent-erc8004-x108/scripts/run_backtest.py:72-150 | an executed step passed gates 1, 2 and 3 in order, outside safe mode, with side BUY exactly when the coherence reaches the threshold and amount max(0, risk); its last investment time is t, the new equity is appended to the curve, and the loss streak grows on a loss and resets otherwise |
| Backtest.Step | obsidia/MVP-obsidia--main/resources/proofs/X108_ADVANCED_TESTS_PACK/trading/trading-agent-erc8004-x108/scripts/run_backtest.py:49-150 | definition of one loop iteration; its properties are StepIsScreen, StepKeepsHealthy, OnlyExecutedBooks, KillEntersSafeMode and SafeModeNeverExecutes |
| Backtest.StepIsScreen | obsidia/MVP-obsidia--main/resources/proofs/X108_ADVANCED_TESTS_PACK/trading/trading-agent-erc8004-x108/scripts/run_backtest.py:49-52 | a step that does not raise is the cooldown tick followed by screening the candidate |
| Backtest.ScreenExecuted | obsidia/MVP-obsidia--main/resources/proofs/X108_ADVANCED_TESTS_PACK/trading/trading-agent-erc8004-x108/scripts/run_backtest.py:82-98 | an executed screen passed gate 1 and gate 2 and went on to gate 3 with the score appended to the window |
| Backtest.ProceedExecuted | obsidia/MVP-obsidia--main/resources/proofs/X108_ADVANCED_TESTS_PACK/trading/trading-agent-erc8004-x108/scripts/run_backtest.py:109-150 | an executed step has pnl = signed amount times returns[t-1] and equity multiplied by 1 + pnl, and did the bookkeeping of the records |
| Backtest.GuardExecuted | obsidia/MVP-obsidia--main/resources/proofs/X108_ADVANCED_TESTS_PACK/trading/trading-agent-erc8004-x108/scripts/run_backtest.py:100-107 | an executed step passed gate 3, which left the record alone |
| Backtest.ProceedOnlyExecutedBooks | obsidia/MVP-obsidia--main/resources/proofs/X108_ADVANCED_TESTS_PACK/trading/trading-agent-erc8004-x108/scripts/run_backtest.py:110-116 | a stop in safe mode leaves the record and the equity unchanged |
| Backtest.GuardOnlyExecutedBooks | obsidia/MVP-obsidia--main/resources/proofs/X108_ADVANCED_TESTS_PACK/trading/trading-agent-erc8004-x108/scripts/run_backtest.py:100-116 | a refusal at gate 3 or in safe mode changes at most the cooldown and leaves the equity unchanged |
| Backtest.OnlyExecutedBooks | obsidia/MVP-obsidia--main/resources/proofs/X108_ADVANCED_TESTS_PACK/trading/trading-agent-erc8004-x108/scripts/run_backtest.py:49-116 | a refused step leaves the investment time, the equity curve, the loss streak and the equity as they were; only the cooldown may move |
| Backtest.GuardKillEntersSafeMode | obsidia/MVP-obsidia--main/resources/proofs/X108_ADVANCED_TESTS_PACK/trading/trading-agent-erc8004-x108/scripts/run_backtest.py:101-104 | a kill at gate 3 makes the ROI policy answer EXIT_MARKET_SAFE and enter safe mode |
| Backtest.KillEntersSafeMode | obsidia/MVP-obsidia--main/resources/proofs/X108_ADVANCED_TESTS_PACK/trading/trading-agent-erc8004-x108/scripts/run_backtest.py:100-107 | a step refused by a kill at gate 3 logs EXIT_MARKET_SAFE and leaves the ROI policy in safe mode |
| Backtest.GuardSafeModeNeverExecutes | obsidia/MVP-obsidia--main/resources/proofs/X108_ADVANCED_TESTS_PACK/trading/trading-agent-erc8004-x108/scripts/run_backtest.py:100-116 | in safe mode gate 3 and the ROI policy never let a step execute, and safe mode stays on |
| Backtest.SafeModeNeverExecutes | obsidia/MVP-obsidia--main/resources/proofs/X108_ADVANCED_TESTS_PACK/trading/trading-agent-erc8004-x108/scripts/run_backtest.py:49-116 | in safe mode no step executes and safe mode stays on |
| Backtest.SafeModeIsFinal | obsidia/MVP-obsidia--main/resources/proofs/X108_ADVANCED_TESTS_PACK/trading/trading-agent-erc8004-x108/scripts/run_backtest.py:49-116 | once the loop is in safe mode it stays there, and none of the later steps executes |
| Backtest.StepInPlace | obsidia/MVP-obsidia--main/resources/proofs/X108_ADVANCED_TESTS_PACK/trading/trading-agent-erc8004-x108/scripts/run_backtest.py:49-52 | updating the run record and the ROI state in place agrees with the step function, an exception included |
| Backtest.ScreenInPlace | obsidia/MVP-obsidia--main/resources/proofs/X108_ADVANCED_TESTS_PACK/trading/trading-agent-erc8004-x108/scripts/run_backtest.py:82-98 | screening in place agrees with the screening function |
| Backtest.GuardInPlace | obsidia/MVP-obsidia--main/resources/proofs/X108_ADVANCED_TESTS_PACK/trading/trading-agent-erc8004-x108/scripts/run_backtest.py:100-107 | gate 3 and the ROI policy in place agree with the guard function |
| Backtest.ProceedInPlace | obsidia/MVP-obsidia--main/resources/proofs/X108_ADVANCED_TESTS_PACK/trading/trading-agent-erc8004-x108/scripts/run_backtest.py:109-150 | the ROI decision and the bookkeeping in place agree with the proceed function |
| Backtest.Advance | obsidia/MVP-obsidia--main/resources/proofs/X108_ADVANCED_TESTS_PACK/trading/trading-agent-erc8004-x108/scripts/run_backtest.py:49-150 | one iteration in place extends the loop's specification by one step |
| Backtest.RunBacktest | obsidia/MVP-obsidia--main/resources/proofs/X108_ADVANCED_TESTS_PACK/trading/trading-agent-erc8004-x108/scripts/run_backtest.py:35-160 | the whole loop from the initial records (equity 1.0, an empty score window, ROI init) over steps 60 to the end of the series gives the loop's specification, raising when a step raises |
| Contract.Validate | MVP-obsidia--main/resources/proofs/X108_ADVANCED_TESTS_PACK/obsidia/forge_os01_x108_v1/src/obsidia_os0/contract.py:11-14 | `validate` never raises, and reports no violation exactly when the program is well formed by the rule-by-rule definition; its further properties are OnlyStructuralRules, ForeignNodeIsOneR10, LoopReportsItselfFirst, NonStateTargetIsR1 and UntimedEventIsR7 |
| Contract.CleanIffWellFormed | MVP-obsidia--main/resources/proofs/X108_ADVANCED_TESTS_PACK/obsidia/forge_os01_x108_v1/src/obsidia_os0/contract.py:11-68 | a program validates to no violation exactly when it is well formed: READ and WRITE target a STATE, every LOOP has a COND and a positive bound, every EVENT is timestamped, nothing outside the alphabet sits where the walk looks, recursively through FLOW steps, LOOP bodies, CALL arguments and WRITE values |
| Contract.CleanIffWellFormedAll | MVP-obsidia--main/resources/proofs/X108_ADVANCED_TESTS_PACK/obsidia/forge_os01_x108_v1/src/obsidia_os0/contract.py:18-21 | a list validates to no violation exactly when every element is well formed |
| Contract.CleanIffWellFormedArgs | MVP-obsidia--main/resources/proofs/X108_ADVANCED_TESTS_PACK/obsidia/forge_os01_x108_v1/src/obsidia_os0/contract.py:61-63 | the CALL arguments add no violation exactly when every argument that is a node or a list is well formed |
| Contract.ConcatStructural | MVP-obsidia--main/resources/proofs/X108_ADVANCED_TESTS_PACK/obsidia/forge_os01_x108_v1/src/obsidia_os0/contract.py:11-68 | joining two lists of structural violations gives a list of structural violations |
| Contract.OwnViolationsStructural | MVP-obsidia--main/resources/proofs/X108_ADVANCED_TESTS_PACK/obsidia/forge_os01_x108_v1/src/obsidia_os0/contract.py:32-51 | what a node reports about itself is only R1, R5, R6 or R7 |
| Contract.OnlyStructuralRules | MVP-obsidia--main/resources/proofs/X108_ADVANCED_TESTS_PACK/obsidia/forge_os01_x108_v1/src/obsidia_os0/contract.py:5-68 | validation only ever reports R1, R5, R6, R7 and R10; R2, R3, R4, R8 and R9 are left to run time |
| Contract.OnlyStructuralRulesAll | MVP-obsidia--main/resources/proofs/X108_ADVANCED_TESTS_PACK/obsidia/forge_os01_x108_v1/src/obsidia_os0/contract.py:18-21 | the same for every element of a list |
| Contract.OnlyStructuralRulesArgs | MVP-obsidia--main/resources/proofs/X108_ADVANCED_TESTS_PACK/obsidia/forge_os01_x108_v1/src/obsidia_os0/contract.py:61-63 | the same for the arguments of a CALL |
| Contract.WalkAllConcat | MVP-obsidia--main/resources/proofs/X108_ADVANCED_TESTS_PACK/obsidia/forge_os01_x108_v1/src/obsidia_os0/contract.py:18-21 | the violations of a list are those of any prefix followed by those of the rest, in order |
| Contract.ForeignNodeIsOneR10 | MVP-obsidia--main/resources/proofs/X108_ADVANCED_TESTS_PACK/obsidia/forge_os01_x108_v1/src/obsidia_os0/contract.py:23-30 | a value outside the alphabet (a tuple, anything else) reports exactly one R10 naming its type, and nothing inside it is examined |
| Contract.LoopReportsItselfFirst | MVP-obsidia--main/resources/proofs/X108_ADVANCED_TESTS_PACK/obsidia/forge_os01_x108_v1/src/obsidia_os0/contract.py:42-60 | a LOOP without COND reports R5 first; with a COND but no positive bound it reports R6 first; otherwise it reports exactly the violations of its condition and then its body |
| Contract.NonStateTargetIsR1 | MVP-obsidia--main/resources/proofs/X108_ADVANCED_TESTS_PACK/obsidia/forge_os01_x108_v1/src/obsidia_os0/contract.py:32-36 | a READ of a non-STATE reports exactly R1, and a WRITE to one reports R1 first |
| Contract.UntimedEventIsR7 | MVP-obsidia--main/resources/proofs/X108_ADVANCED_TESTS_PACK/obsidia/forge_os01_x108_v1/src/obsidia_os0/contract.py:47-49 | an EVENT reports R7 with its name when it has no timestamp, and nothing otherwise |
| Contract.CountingProgramIsWellFormed | MVP-obsidia--main/resources/proofs/X108_ADVANCED_TESTS_PACK/obsidia/forge_os01_x108_v1/src/obsidia_os0/contract.py:11-68 | the bounded counting loop x = 0; while x < 3: x = x + 1 is well formed |
| Contract.ReadProgramIsClean | MVP-obsidia--main/resources/proofs/X108_ADVANCED_TESTS_PACK/obsidia/forge_os01_x108_v1/src/obsidia_os0/contract.py:11-68 | [READ(STATE("x"))] validates to no violation |
| Contract.ClockProgramIsClean | MVP-obsidia--main/resources/proofs/X108_ADVANCED_TESTS_PACK/obsidia/forge_os01_x108_v1/src/obsidia_os0/contract.py:50 | [TIME(10), TIME(9)] validates to no violation: the order of time is checked only at run time |
| Contract.CountingProgramIsClean | MVP-obsidia--main/resources/proofs/X108_ADVANCED_TESTS_PACK/obsidia/forge_os01_x108_v1/src/obsidia_os0/contract.py:11-68 | the counting loop validates to no violation |
| Sandbox.Execute | obsidia/MVP-obsidia--main/resources/proofs/X108_ADVANCED_TESTS_PACK/obsidia/forge_os01_x108_v1/src/obsidia_os0/sandbox.py:56-131 | definition of `_exec`; its properties are ExecuteExtends, RunKeepsClockAndNumbering, ReadUndeclaredRaisesR2, TimeIsOrdered, StateNeverOverwrites, WriteChangesOnlyItsName, CallFailuresRaiseR4, NonExecutableRaisesR10, NonPositiveBoundRaisesR6, MissingBoundRaises and CountingLoopResult |
| Sandbox.Ticked | obsidia/MVP-obsidia--main/resources/proofs/X108_ADVANCED_TESTS_PACK/obsidia/forge_os01_x108_v1/src/obsidia_os0/sandbox.py:23-25 | a tick appends one log entry numbered one past the step counter, advances the counter, and leaves the store and the clock alone |
| Sandbox.Repeat | obsidia/MVP-obsidia--main/resources/proofs/X108_ADVANCED_TESTS_PACK/obsidia/forge_os01_x108_v1/src/obsidia_os0/sandbox.py:49 | repeating a string n times has n times its length, and nothing when n is zero or less |
| Sandbox.EvaluateAll | obsidia/MVP-obsidia--main/resources/proofs/X108_ADVANCED_TESTS_PACK/obsidia/forge_os01_x108_v1/src/obsidia_os0/sandbox.py:119 | evaluating the arguments gives one value per argument |
| Sandbox.ExtendsTrans | obsidia/MVP-obsidia--main/resources/proofs/X108_ADVANCED_TESTS_PACK/obsidia/forge_os01_x108_v1/src/obsidia_os0/sandbox.py:56-131 | one run's extension of the machine followed by another's is an extension |
| Sandbox.TickedExtends | obsidia/MVP-obsidia--main/resources/proofs/X108_ADVANCED_TESTS_PACK/obsidia/forge_os01_x108_v1/src/obsidia_os0/sandbox.py:23-25 | a tick extends the machine |
| Sandbox.ExecuteExtends | obsidia/MVP-obsidia--main/resources/proofs/X108_ADVANCED_TESTS_PACK/obsidia/forge_os01_x108_v1/src/obsidia_os0/sandbox.py:56-131 | every run, returning or raising, leaves the clock no earlier, every declared name declared, and the log only grown, one consecutively numbered entry per step |
| Sandbox.StepExtends | obsidia/MVP-obsidia--main/resources/proofs/X108_ADVANCED_TESTS_PACK/obsidia/forge_os01_x108_v1/src/obsidia_os0/sandbox.py:63-91 | the same for TIME, STATE, WRITE and every other node that runs no other node |
| Sandbox.LeafExtends | obsidia/MVP-obsidia--main/resources/proofs/X108_ADVANCED_TESTS_PACK/obsidia/forge_os01_x108_v1/src/obsidia_os0/sandbox.py:70-73 | the same for the nodes that at most log themselves |
| Sandbox.ExecuteAllExtends | obsidia/MVP-obsidia--main/resources/proofs/X108_ADVANCED_TESTS_PACK/obsidia/forge_os01_x108_v1/src/obsidia_os0/sandbox.py:57-61 | the same for a list of steps |
| Sandbox.IterateExtends | obsidia/MVP-obsidia--main/resources/proofs/X108_ADVANCED_TESTS_PACK/obsidia/forge_os01_x108_v1/src/obsidia_os0/sandbox.py:104-114 | the same for a LOOP |
| Sandbox.RunKeepsClockAndNumbering | obsidia/MVP-obsidia--main/resources/proofs/X108_ADVANCED_TESTS_PACK/obsidia/forge_os01_x108_v1/src/obsidia_os0/sandbox.py:23-25 | a run never moves the clock back, never undeclares a name, and keeps a log numbered 1, 2, 3, ... so numbered |
| Sandbox.FreshIsNumbered | obsidia/MVP-obsidia--main/resources/proofs/X108_ADVANCED_TESTS_PACK/obsidia/forge_os01_x108_v1/src/obsidia_os0/sandbox.py:13-18 | a new sandbox has no names, time 0, an empty log and step 0, so its log is numbered |
| Sandbox.ReadUndeclaredRaisesR2 | obsidia/MVP-obsidia--main/resources/proofs/X108_ADVANCED_TESTS_PACK/obsidia/forge_os01_x108_v1/src/obsidia_os0/sandbox.py:31-35 | READ raises R2 exactly when the name is undeclared, and then changes nothing; otherwise it gives VALUE of the stored value and logs one step |
| Sandbox.ReadOfEmptySandbox | obsidia/MVP-obsidia--main/resources/proofs/X108_ADVANCED_TESTS_PACK/obsidia/forge_os01_x108_v1/src/obsidia_os0/sandbox.py:31-35 | [READ(STATE("x"))] on a new sandbox raises R2 |
| Sandbox.TimeIsOrdered | obsidia/MVP-obsidia--main/resources/proofs/X108_ADVANCED_TESTS_PACK/obsidia/forge_os01_x108_v1/src/obsidia_os0/sandbox.py:63-68 | TIME(t) raises R8 exactly when t is before the clock, changing nothing, and otherwise sets the clock to t and leaves the store alone |
| Sandbox.TimeGoingBackRaises | obsidia/MVP-obsidia--main/resources/proofs/X108_ADVANCED_TESTS_PACK/obsidia/forge_os01_x108_v1/src/obsidia_os0/sandbox.py:63-68 | [TIME(10), TIME(9)] on a new sandbox raises R8 with the clock left at 10 |
| Sandbox.StateNeverOverwrites | obsidia/MVP-obsidia--main/resources/proofs/X108_ADVANCED_TESTS_PACK/obsidia/forge_os01_x108_v1/src/obsidia_os0/sandbox.py:75-80 | STATE keeps the value of a declared name and declares a new one as None |
| Sandbox.WriteChangesOnlyItsName | obsidia/MVP-obsidia--main/resources/proofs/X108_ADVANCED_TESTS_PACK/obsidia/forge_os01_x108_v1/src/obsidia_os0/sandbox.py:82-86 | WRITE succeeds exactly when its value evaluates, and then sets the named entry to that value and changes no other entry; a raising WRITE changes nothing |
| Sandbox.CallFailuresRaiseR4 | obsidia/MVP-obsidia--main/resources/proofs/X108_ADVANCED_TESTS_PACK/obsidia/forge_os01_x108_v1/src/obsidia_os0/sandbox.py:116-125 | an unregistered function raises R4 before anything is logged; a callee that raises gives R4; a callee that returns gives RETURN(VALUE(result)) |
| Sandbox.NonExecutableRaisesR10 | obsidia/MVP-obsidia--main/resources/proofs/X108_ADVANCED_TESTS_PACK/obsidia/forge_os01_x108_v1/src/obsidia_os0/sandbox.py:131 | VALUE, a tuple and any other value are not executable: each raises R10 and changes nothing |
| Sandbox.AdditionIsExact | obsidia/MVP-obsidia--main/resources/proofs/X108_ADVANCED_TESTS_PACK/obsidia/forge_os01_x108_v1/src/obsidia_os0/sandbox.py:36-47 | integer addition in a tuple expression is exact |
| Sandbox.StoredSumIsExact | obsidia/MVP-obsidia--main/resources/proofs/X108_ADVANCED_TESTS_PACK/obsidia/forge_os01_x108_v1/src/obsidia_os0/sandbox.py:75-86 | declaring x and writing a + b to it leaves x equal to a + b exactly |
| Sandbox.DivisionByZeroRaises | obsidia/MVP-obsidia--main/resources/proofs/X108_ADVANCED_TESTS_PACK/obsidia/forge_os01_x108_v1/src/obsidia_os0/sandbox.py:50 | dividing by an integer or float zero raises ZeroDivisionError |
| Sandbox.LastStepGivesResult | obsidia/MVP-obsidia--main/resources/proofs/X108_ADVANCED_TESTS_PACK/obsidia/forge_os01_x108_v1/src/obsidia_os0/sandbox.py:57-61 | a list gives the result of its last step: running ns + [n] is running ns and then, unless that raised, n |
| Sandbox.NonPositiveBoundRaisesR6 | obsidia/MVP-obsidia--main/resources/proofs/X108_ADVANCED_TESTS_PACK/obsidia/forge_os01_x108_v1/src/obsidia_os0/sandbox.py:104-108 | a LOOP with a bound of zero or less raises R6 before its condition runs, changing nothing |
| Sandbox.MissingBoundRaises | obsidia/MVP-obsidia--main/resources/proofs/X108_ADVANCED_TESTS_PACK/obsidia/forge_os01_x108_v1/src/obsidia_os0/sandbox.py:107 | a LOOP whose bound is None raises TypeError from the comparison |
| Sandbox.AlwaysTrueLoopStopsAtBound | obsidia/MVP-obsidia--main/resources/proofs/X108_ADVANCED_TESTS_PACK/obsidia/forge_os01_x108_v1/src/obsidia_os0/sandbox.py:104-114 | a loop whose condition is always true tests it exactly as many times as the bound leaves, logging one COND step each, then raises R6 without changing the store |
| Sandbox.BelowThreeHolds | obsidia/MVP-obsidia--main/resources/proofs/X108_ADVANCED_TESTS_PACK/obsidia/forge_os01_x108_v1/src/obsidia_os0/sandbox.py:36-41 | the test x < 3 gives whether the stored integer x is below 3 |
| Sandbox.CountingPass | obsidia/MVP-obsidia--main/resources/proofs/X108_ADVANCED_TESTS_PACK/obsidia/forge_os01_x108_v1/src/obsidia_os0/sandbox.py:104-114 | one pass of the counting loop from x = k < 3 passes the test and leaves x = k + 1 |
| Sandbox.CountingLoopFrom | obsidia/MVP-obsidia--main/resources/proofs/X108_ADVANCED_TESTS_PACK/obsidia/forge_os01_x108_v1/src/obsidia_os0/sandbox.py:104-114 | from x = k after it passes, the counting loop ends with x = 3 when the bound leaves room for the final test, and raises R6 otherwise |
| Sandbox.CountingStep | obsidia/MVP-obsidia--main/resources/proofs/X108_ADVANCED_TESTS_PACK/obsidia/forge_os01_x108_v1/src/obsidia_os0/sandbox.py:104-114 | below the bound, from x = k < 3, the loop makes one pass and goes round with x = k + 1 |
| Sandbox.CountingExit | obsidia/MVP-obsidia--main/resources/proofs/X108_ADVANCED_TESTS_PACK/obsidia/forge_os01_x108_v1/src/obsidia_os0/sandbox.py:110-112 | below the bound, with x = 3, the loop ends with None and x still 3 |
| Sandbox.IterateAtBound | obsidia/MVP-obsidia--main/resources/proofs/X108_ADVANCED_TESTS_PACK/obsidia/forge_os01_x108_v1/src/obsidia_os0/sandbox.py:107-108 | at its bound a loop raises R6 |
| Sandbox.IteratePass | obsidia/MVP-obsidia--main/resources/proofs/X108_ADVANCED_TESTS_PACK/obsidia/forge_os01_x108_v1/src/obsidia_os0/sandbox.py:104-114 | below the bound, a true condition and a body that does not raise make one pass and go round |
| Sandbox.IterateExit | obsidia/MVP-obsidia--main/resources/proofs/X108_ADVANCED_TESTS_PACK/obsidia/forge_os01_x108_v1/src/obsidia_os0/sandbox.py:110-112 | below the bound, a false condition ends the loop with None |
| Sandbox.CountingLoopResult | obsidia/MVP-obsidia--main/resources/proofs/X108_ADVANCED_TESTS_PACK/obsidia/forge_os01_x108_v1/src/obsidia_os0/sandbox.py:104-114 | x = 0; while x < 3: x = x + 1 ends with x = 3 when the bound exceeds 3, and raises R6 when the bound is 3 or less |
| Sandbox.CountingSetup | obsidia/MVP-obsidia--main/resources/proofs/X108_ADVANCED_TESTS_PACK/obsidia/forge_os01_x108_v1/src/obsidia_os0/sandbox.py:57-86 | the two statements before the counting loop declare x and set it to 0 |
| Sandbox.ExecuteSingleton | obsidia/MVP-obsidia--main/resources/proofs/X108_ADVANCED_TESTS_PACK/obsidia/forge_os01_x108_v1/src/obsidia_os0/sandbox.py:57-61 | a one-node list runs as the node |
| Sandbox.ExecuteAllStep | obsidia/MVP-obsidia--main/resources/proofs/X108_ADVANCED_TESTS_PACK/obsidia/forge_os01_x108_v1/src/obsidia_os0/sandbox.py:57-61 | a first step that does not raise hands its machine and result on to the rest of the list |
| Sandbox.Sandbox.constructor | obsidia/MVP-obsidia--main/resources/proofs/X108_ADVANCED_TESTS_PACK/obsidia/forge_os01_x108_v1/src/obsidia_os0/sandbox.py:13-18 | a new sandbox is empty, at time 0, with an empty log, and holds the given registry |
| Sandbox.Sandbox.Run | obsidia/MVP-obsidia--main/resources/proofs/X108_ADVANCED_TESTS_PACK/obsidia/forge_os01_x108_v1/src/obsidia_os0/sandbox.py:20-21 | running a program in place leaves the fields as the specification's outcome says and returns its result |
| Sandbox.Sandbox.Tick | obsidia/MVP-obsidia--main/resources/proofs/X108_ADVANCED_TESTS_PACK/obsidia/forge_os01_x108_v1/src/obsidia_os0/sandbox.py:23-25 | the in-place tick does what the specification's tick does |
| Sandbox.Sandbox.Exec | obsidia/MVP-obsidia--main/resources/proofs/X108_ADVANCED_TESTS_PACK/obsidia/forge_os01_x108_v1/src/obsidia_os0/sandbox.py:56-131 | executing a node in place agrees with the specification, a raise included, and the changes made before a raise are kept |
| Sandbox.Sandbox.ExecSteps | obsidia/MVP-obsidia--main/resources/proofs/X108_ADVANCED_TESTS_PACK/obsidia/forge_os01_x108_v1/src/obsidia_os0/sandbox.py:57-61 | the in-place loop over a list agrees with the specification of a list |
| Sandbox.Sandbox.ExecLoop | obsidia/MVP-obsidia--main/resources/proofs/X108_ADVANCED_TESTS_PACK/obsidia/forge_os01_x108_v1/src/obsidia_os0/sandbox.py:104-114 | the in-place while True loop of a LOOP agrees with the specification of the loop |
| Os1.GetFrom | MVP-obsidia--main/resources/proofs/X108_ADVANCED_TESTS_PACK/obsidia/forge_os01_x108_v1/src/obsidia_os1/os1.py:128-133 | .get on a value raises AttributeError exactly when the value is not a dict, and otherwise gives the entry or None |
| Os1.RowsAsWritten | MVP-obsidia--main/resources/proofs/X108_ADVANCED_TESTS_PACK/obsidia/forge_os01_x108_v1/src/obsidia_os1/os1.py:107-114 | the exported log as written: one row per entry with its step number and no operation |
| Os1.Rows | MVP-obsidia--main/resources/proofs/X108_ADVANCED_TESTS_PACK/obsidia/forge_os01_x108_v1/src/obsidia_os1/os1.py:107-114 | the exported log as intended: one row per entry with its step number and the class of the node that made it |
| Os1.RowsAsWrittenLoseTheOperation | MVP-obsidia--main/resources/proofs/X108_ADVANCED_TESTS_PACK/obsidia/forge_os01_x108_v1/src/obsidia_os1/os1.py:110 | after [STATE("x")] on a new sandbox the only entry was made by STATE, yet the row built as written has no operation |
| Os1.RowsKeepTheLog | MVP-obsidia--main/resources/proofs/X108_ADVANCED_TESTS_PACK/obsidia/forge_os01_x108_v1/src/obsidia_os1/os1.py:107-114 | every intended row names the node class and step of its entry, and distinct entries give distinct rows |
| Os1.StatusAsWritten | MVP-obsidia--main/resources/proofs/X108_ADVANCED_TESTS_PACK/obsidia/forge_os01_x108_v1/src/obsidia_os1/os1.py:133 | the status line as written raises exactly when the sandbox returned a value that is not a dict |
| Os1.Status | MVP-obsidia--main/resources/proofs/X108_ADVANCED_TESTS_PACK/obsidia/forge_os01_x108_v1/src/obsidia_os1/os1.py:133 | the intended status agrees with the written one wherever that one does not raise, and is None for a non-dict result |
| Os1.NonDictResultBreaksReport | MVP-obsidia--main/resources/proofs/X108_ADVANCED_TESTS_PACK/obsidia/forge_os01_x108_v1/src/obsidia_os1/os1.py:101-133 | a program ending in RETURN(1) runs in the sandbox without error, and then the status line as written raises AttributeError |
| Os1.ActReport | MVP-obsidia--main/resources/proofs/X108_ADVANCED_TESTS_PACK/obsidia/forge_os01_x108_v1/src/obsidia_os1/os1.py:122-133 | an ACT report starts with the lines ACT, contract: OK, and x108 with its reason or SKIP |
| Os1.Execution | MVP-obsidia--main/resources/proofs/X108_ADVANCED_TESTS_PACK/obsidia/forge_os01_x108_v1/src/obsidia_os1/os1.py:100-141 | a sandbox exception rejects without an OS0 result; otherwise the decision is ACT with the run's record (or returned value) as the OS0 result, built with the rows of the chosen reading, unless reading the IR type or, as written, the status line raises; contract_ok is always true here and the decision never HOLD |
| Os1.StatusIn | MVP-obsidia--main/resources/proofs/X108_ADVANCED_TESTS_PACK/obsidia/forge_os01_x108_v1/src/obsidia_os1/os1.py:133 | the status line of a reading raises exactly when the reading is as written and the sandbox returned a value that is not a dict |
| Os1.RunRequest | MVP-obsidia--main/resources/proofs/X108_ADVANCED_TESTS_PACK/obsidia/forge_os01_x108_v1/src/obsidia_os1/os1.py:28-141 | definition of `run_request` under a reading: `AsWritten` is the code, `Intended` the corrected report; its properties, each on either reading, are ParseErrorRejects, ContractOkIffParsed, ViolationsDoNotReject, HoldSkipsSandbox, MissingContextDefaults, NoGateSkips, SandboxErrorRejects and ActCarriesResult, and ReadingsDifferOnReturn and ReadingsDifferOnLog show where the readings part |
| Os1.ReadingsDifferOnReturn | MVP-obsidia--main/resources/proofs/X108_ADVANCED_TESTS_PACK/obsidia/forge_os01_x108_v1/src/obsidia_os1/os1.py:101-133 | for the program [RETURN(1)] the request as written raises AttributeError, while the intended request answers ACT with the returned value as its OS0 result |
| Os1.ReadingsDifferOnLog | MVP-obsidia--main/resources/proofs/X108_ADVANCED_TESTS_PACK/obsidia/forge_os01_x108_v1/src/obsidia_os1/os1.py:103-115 | for the program [STATE("x")] the request as written exports a row with no operation, while the intended request's row names STATE |
| Os1.Consult | MVP-obsidia--main/resources/proofs/X108_ADVANCED_TESTS_PACK/obsidia/forge_os01_x108_v1/src/obsidia_os1/os1.py:75-98 | without a gate X-108 is skipped; without a context the gate is asked about an irreversible action with no time elapsed and note IST=0.0 CMEC=0.0 |
| Os1.ParseErrorRejects | MVP-obsidia--main/resources/proofs/X108_ADVANCED_TESTS_PACK/obsidia/forge_os01_x108_v1/src/obsidia_os1/os1.py:47-57 | a parse exception rejects with contract_ok false, no X-108 result and no OS0 result |
| Os1.ContractOkIffParsed | MVP-obsidia--main/resources/proofs/X108_ADVANCED_TESTS_PACK/obsidia/forge_os01_x108_v1/src/obsidia_os1/os1.py:28-141 | contract_ok is false exactly when parsing failed, and a REJECT comes only from a parse error or a sandbox exception |
| Os1.ViolationsDoNotReject | MVP-obsidia--main/resources/proofs/X108_ADVANCED_TESTS_PACK/obsidia/forge_os01_x108_v1/src/obsidia_os1/os1.py:63-73 | the contract's violations are never consulted: a program with an untimed EVENT violates R7 and is still ACT |
| Os1.HoldSkipsSandbox | MVP-obsidia--main/resources/proofs/X108_ADVANCED_TESTS_PACK/obsidia/forge_os01_x108_v1/src/obsidia_os1/os1.py:85-98 | an X-108 hold answers HOLD with contract_ok true and no OS0 result, whatever sandbox is passed |
| Os1.MissingContextDefaults | MVP-obsidia--main/resources/proofs/X108_ADVANCED_TESTS_PACK/obsidia/forge_os01_x108_v1/src/obsidia_os1/os1.py:78-84 | without a context the gate sees no elapsed time and an irreversible action, so any positive minimum wait holds |
| Os1.NoGateSkips | MVP-obsidia--main/resources/proofs/X108_ADVANCED_TESTS_PACK/obsidia/forge_os01_x108_v1/src/obsidia_os1/os1.py:76-77 | without a gate there is no X-108 check, never a HOLD, and an ACT report says x108: SKIP |
| Os1.SandboxErrorRejects | MVP-obsidia--main/resources/proofs/X108_ADVANCED_TESTS_PACK/obsidia/forge_os01_x108_v1/src/obsidia_os1/os1.py:116-119 | a sandbox exception rejects with contract_ok true, keeping the X-108 check (an ACT when a gate was given), and no OS0 result |
| Os1.ActCarriesResult | MVP-obsidia--main/resources/proofs/X108_ADVANCED_TESTS_PACK/obsidia/forge_os01_x108_v1/src/obsidia_os1/os1.py:101-141 | ACT always comes with a successful parse, contract_ok true and an OS0 result, which is the record of the sandbox's final state exactly when the program returned None |
| Structural.TriangleScoreIsMean | obsidia/MVP-obsidia--main/resources/proofs/X108_ADVANCED_TESTS_PACK/obsidia/forge_os01_x108_v1/src/obsidia_structural_core/metrics.py:48-49 | the triangle score is the mean of the triangle's three edge weights |
| Structural.StrongWithMembers | obsidia/MVP-obsidia--main/resources/proofs/X108_ADVANCED_TESTS_PACK/obsidia/forge_os01_x108_v1/src/obsidia_structural_core/metrics.py:54-58 | the innermost scan lists exactly the strong triangles (i, j, k) with j < k below its bound |
| Structural.StrongFromMembers | obsidia/MVP-obsidia--main/resources/proofs/X108_ADVANCED_TESTS_PACK/obsidia/forge_os01_x108_v1/src/obsidia_structural_core/metrics.py:54-58 | the middle scan lists exactly the strong triangles (i, j, k) with i < j below its bound |
| Structural.StrongBelowMembers | obsidia/MVP-obsidia--main/resources/proofs/X108_ADVANCED_TESTS_PACK/obsidia/forge_os01_x108_v1/src/obsidia_structural_core/metrics.py:54-58 | the outer scan lists exactly the strong triangles whose first node is below its bound |
| Structural.InsertByScore | obsidia/MVP-obsidia--main/resources/proofs/X108_ADVANCED_TESTS_PACK/obsidia/forge_os01_x108_v1/src/obsidia_structural_core/metrics.py:59 | inserting a triangle adds it and nothing else |
| Structural.SortByScore | obsidia/MVP-obsidia--main/resources/proofs/X108_ADVANCED_TESTS_PACK/obsidia/forge_os01_x108_v1/src/obsidia_structural_core/metrics.py:59 | the sort returns the same triangles, counted with multiplicity |
| Structural.InsertKeepsDescending | obsidia/MVP-obsidia--main/resources/proofs/X108_ADVANCED_TESTS_PACK/obsidia/forge_os01_x108_v1/src/obsidia_structural_core/metrics.py:59 | inserting into a list sorted by decreasing score keeps it so sorted |
| Structural.SortByScoreSorts | obsidia/MVP-obsidia--main/resources/proofs/X108_ADVANCED_TESTS_PACK/obsidia/forge_os01_x108_v1/src/obsidia_structural_core/metrics.py:59 | the sort returns a permutation of its input with scores in decreasing order |
| Structural.SortKeepsSortedInput | obsidia/MVP-obsidia--main/resources/proofs/X108_ADVANCED_TESTS_PACK/obsidia/forge_os01_x108_v1/src/obsidia_structural_core/metrics.py:59 | the sort is stable: a list already in decreasing order, ties included, comes back unchanged |
| Structural.StrongTrianglesAreTheStrongTriples | obsidia/MVP-obsidia--main/resources/proofs/X108_ADVANCED_TESTS_PACK/obsidia/forge_os01_x108_v1/src/obsidia_structural_core/metrics.py:51-60 | the strong triangles are exactly the triples i < j < k with three positive edges and a score of at least theta_T, each with its score, sorted by decreasing score |
| Structural.FindStrongTriangles | obsidia/MVP-obsidia--main/resources/proofs/X108_ADVANCED_TESTS_PACK/obsidia/forge_os01_x108_v1/src/obsidia_structural_core/metrics.py:51-60 | the loops over combinations(range(n), 3) and the sort give the strong triangles |
| Structural.StrongTrianglesWith | obsidia/MVP-obsidia--main/resources/proofs/X108_ADVANCED_TESTS_PACK/obsidia/forge_os01_x108_v1/src/obsidia_structural_core/metrics.py:54-58 | the innermost loop collects the strong triangles (i, j, k) for every k > j |
| Structural.CandidatesBelow | obsidia/MVP-obsidia--main/resources/proofs/X108_ADVANCED_TESTS_PACK/obsidia/forge_os01_x108_v1/src/obsidia_structural_core/metrics.py:67 | the candidates of a centre are exactly the other nodes whose edge from it weighs at least theta_R, in increasing order |
| Structural.Prefixed | obsidia/MVP-obsidia--main/resources/proofs/X108_ADVANCED_TESTS_PACK/obsidia/forge_os01_x108_v1/src/obsidia_structural_core/metrics.py:70-73 | prefixing adds the element in front of every selection |
| Structural.Combinations | obsidia/MVP-obsidia--main/resources/proofs/X108_ADVANCED_TESTS_PACK/obsidia/forge_os01_x108_v1/src/obsidia_structural_core/metrics.py:70 | every k-element selection has k entries, each taken from the list |
| Structural.Without | obsidia/MVP-obsidia--main/resources/proofs/X108_ADVANCED_TESTS_PACK/obsidia/forge_os01_x108_v1/src/obsidia_structural_core/metrics.py:72 | removing one entry keeps every other entry |
| Structural.Permutations | obsidia/MVP-obsidia--main/resources/proofs/X108_ADVANCED_TESTS_PACK/obsidia/forge_os01_x108_v1/src/obsidia_structural_core/metrics.py:72 | every ordering is a permutation of the list |
| Structural.PermutationsPicking | obsidia/MVP-obsidia--main/resources/proofs/X108_ADVANCED_TESTS_PACK/obsidia/forge_os01_x108_v1/src/obsidia_structural_core/metrics.py:72 | every ordering produced is a permutation of the list |
| Structural.RingsOf | obsidia/MVP-obsidia--main/resources/proofs/X108_ADVANCED_TESTS_PACK/obsidia/forge_os01_x108_v1/src/obsidia_structural_core/metrics.py:71-73 | every ring of a six-node selection is a permutation of the selection |
| Structural.RadialTransfers | obsidia/MVP-obsidia--main/resources/proofs/X108_ADVANCED_TESTS_PACK/obsidia/forge_os01_x108_v1/src/obsidia_structural_core/metrics.py:67-73 | two lists with the same elements are radial for the same centre together |
| Structural.Radials | obsidia/MVP-obsidia--main/resources/proofs/X108_ADVANCED_TESTS_PACK/obsidia/forge_os01_x108_v1/src/obsidia_structural_core/metrics.py:80 | the radial weights are the centre's edges to the ring nodes, in ring order |
| Structural.RadialNodes | obsidia/MVP-obsidia--main/resources/proofs/X108_ADVANCED_TESTS_PACK/obsidia/forge_os01_x108_v1/src/obsidia_structural_core/metrics.py:67 | radial nodes are nodes of the graph |
| Structural.ScanRingsFirst | obsidia/MVP-obsidia--main/resources/proofs/X108_ADVANCED_TESTS_PACK/obsidia/forge_os01_x108_v1/src/obsidia_structural_core/metrics.py:72-87 | a ring failing the edge test is skipped; a passing ring is scored, replaces the best only when strictly higher, and is counted |
| Structural.RingsOfRadial | obsidia/MVP-obsidia--main/resources/proofs/X108_ADVANCED_TESTS_PACK/obsidia/forge_os01_x108_v1/src/obsidia_structural_core/metrics.py:70-73 | the rings of a radial selection are radial |
| Structural.SelectionsRadial | obsidia/MVP-obsidia--main/resources/proofs/X108_ADVANCED_TESTS_PACK/obsidia/forge_os01_x108_v1/src/obsidia_structural_core/metrics.py:67-70 | the six-node selections of a centre's candidates are radial |
| Structural.ScanRingsValid | obsidia/MVP-obsidia--main/resources/proofs/X108_ADVANCED_TESTS_PACK/obsidia/forge_os01_x108_v1/src/obsidia_structural_core/metrics.py:72-87 | scanning rings keeps the best, when there is one, a valid hexagon |
| Structural.ScanSubsetsValid | obsidia/MVP-obsidia--main/resources/proofs/X108_ADVANCED_TESTS_PACK/obsidia/forge_os01_x108_v1/src/obsidia_structural_core/metrics.py:70-88 | the same over the selections of a centre |
| Structural.ScanCentresValid | obsidia/MVP-obsidia--main/resources/proofs/X108_ADVANCED_TESTS_PACK/obsidia/forge_os01_x108_v1/src/obsidia_structural_core/metrics.py:66-89 | the same over the remaining centres |
| Structural.BestHexagon | obsidia/MVP-obsidia--main/resources/proofs/X108_ADVANCED_TESTS_PACK/obsidia/forge_os01_x108_v1/src/obsidia_structural_core/metrics.py:62-89 | the result of `find_best_hexagon` is none or a valid hexagon of the graph with its mean, variance and score; its properties are BestHexagonExists and BestHexagonIsBest |
| Structural.BestHexagonIsAHexagon | obsidia/MVP-obsidia--main/resources/proofs/X108_ADVANCED_TESTS_PACK/obsidia/forge_os01_x108_v1/src/obsidia_structural_core/metrics.py:62-89 | the best hexagon, when there is one, has a centre outside its ring, six radial edges of at least theta_R, six ring edges of at least theta_A, and the score mean - lam * var of its radial weights |
| Structural.RingsPassSplit | obsidia/MVP-obsidia--main/resources/proofs/X108_ADVANCED_TESTS_PACK/obsidia/forge_os01_x108_v1/src/obsidia_structural_core/metrics.py:72-79 | some ring of a list passes exactly when the first does or some later one does |
| Structural.SubsetsPassSplit | obsidia/MVP-obsidia--main/resources/proofs/X108_ADVANCED_TESTS_PACK/obsidia/forge_os01_x108_v1/src/obsidia_structural_core/metrics.py:70-79 | some ring of some selection passes exactly when one of the first selection's does or one of a later selection's does |
| Structural.ScanRingsFinds | obsidia/MVP-obsidia--main/resources/proofs/X108_ADVANCED_TESTS_PACK/obsidia/forge_os01_x108_v1/src/obsidia_structural_core/metrics.py:72-87 | scanning rings ends with a best exactly when it started with one or some ring passes |
| Structural.ScanSubsetsFinds | obsidia/MVP-obsidia--main/resources/proofs/X108_ADVANCED_TESTS_PACK/obsidia/forge_os01_x108_v1/src/obsidia_structural_core/metrics.py:70-88 | the same over the selections of a centre |
| Structural.SearchCentreFinds | obsidia/MVP-obsidia--main/resources/proofs/X108_ADVANCED_TESTS_PACK/obsidia/forge_os01_x108_v1/src/obsidia_structural_core/metrics.py:66-88 | with a positive cap, searching a centre finds a hexagon exactly when one was known or the centre has six candidates and a passing ring |
| Structural.SomeCentreSplit | obsidia/MVP-obsidia--main/resources/proofs/X108_ADVANCED_TESTS_PACK/obsidia/forge_os01_x108_v1/src/obsidia_structural_core/metrics.py:66 | some centre from p on passes exactly when p does or some later centre does |
| Structural.ScanCentresFinds | obsidia/MVP-obsidia--main/resources/proofs/X108_ADVANCED_TESTS_PACK/obsidia/forge_os01_x108_v1/src/obsidia_structural_core/metrics.py:66-89 | scanning the centres from p finds a hexagon exactly when one was known or some centre from p on passes |
| Structural.BestHexagonExists | obsidia/MVP-obsidia--main/resources/proofs/X108_ADVANCED_TESTS_PACK/obsidia/forge_os01_x108_v1/src/obsidia_structural_core/metrics.py:62-89 | with a positive cap, a hexagon is found exactly when some centre has six candidates and a ring of them whose six edges reach theta_A |
| Structural.ScanRingsBest | obsidia/MVP-obsidia--main/resources/proofs/X108_ADVANCED_TESTS_PACK/obsidia/forge_os01_x108_v1/src/obsidia_structural_core/metrics.py:72-87 | below the cap, no passing ring scores more than the best a ring scan keeps, which is at least as good as the one it started from |
| Structural.BeatsRingsLater | obsidia/MVP-obsidia--main/resources/proofs/X108_ADVANCED_TESTS_PACK/obsidia/forge_os01_x108_v1/src/obsidia_structural_core/metrics.py:84-85 | a best that is only ever replaced by a better one keeps beating what its predecessor beat |
| Structural.ScanSubsetsBest | obsidia/MVP-obsidia--main/resources/proofs/X108_ADVANCED_TESTS_PACK/obsidia/forge_os01_x108_v1/src/obsidia_structural_core/metrics.py:70-88 | below the cap, no passing ring of any selection scores more than the best found |
| Structural.SearchCentreBest | obsidia/MVP-obsidia--main/resources/proofs/X108_ADVANCED_TESTS_PACK/obsidia/forge_os01_x108_v1/src/obsidia_structural_core/metrics.py:66-88 | a centre with fewer rings than the cap is searched completely: no passing ring of it scores more than the best found |
| Structural.BeatsCentreLater | obsidia/MVP-obsidia--main/resources/proofs/X108_ADVANCED_TESTS_PACK/obsidia/forge_os01_x108_v1/src/obsidia_structural_core/metrics.py:84-85 | a better best keeps beating every ring of a centre |
| Structural.ScanCentresBest | obsidia/MVP-obsidia--main/resources/proofs/X108_ADVANCED_TESTS_PACK/obsidia/forge_os01_x108_v1/src/obsidia_structural_core/metrics.py:66-89 | when no centre reaches the cap, the hexagon found beats every passing ring of every centre scanned |
| Structural.BestHexagonIsBest | obsidia/MVP-obsidia--main/resources/proofs/X108_ADVANCED_TESTS_PACK/obsidia/forge_os01_x108_v1/src/obsidia_structural_core/metrics.py:62-89 | when no centre has as many rings as the cap, the cap never stops the search, and the hexagon found scores at least as much as every passing ring of every centre |
| Structural.CheckRing | obsidia/MVP-obsidia--main/resources/proofs/X108_ADVANCED_TESTS_PACK/obsidia/forge_os01_x108_v1/src/obsidia_structural_core/metrics.py:74-79 | the edge loop with its early exit accepts a ring exactly when all six edges ring[i] to ring[(i + 1) % 6] reach theta_A |
| Structural.SearchRings | obsidia/MVP-obsidia--main/resources/proofs/X108_ADVANCED_TESTS_PACK/obsidia/forge_os01_x108_v1/src/obsidia_structural_core/metrics.py:72-87 | the permutation loop computes the ring scan of its specification |
| Structural.SearchSelections | obsidia/MVP-obsidia--main/resources/proofs/X108_ADVANCED_TESTS_PACK/obsidia/forge_os01_x108_v1/src/obsidia_structural_core/metrics.py:67-88 | the selection loop computes the search of one centre |
| Structural.FindBestHexagon | obsidia/MVP-obsidia--main/resources/proofs/X108_ADVANCED_TESTS_PACK/obsidia/forge_os01_x108_v1/src/obsidia_structural_core/metrics.py:62-89 | the loop over centres computes the best hexagon of the specification |
| Structural.AsymmetryIsADeviation | obsidia/MVP-obsidia--main/resources/proofs/X108_ADVANCED_TESTS_PACK/obsidia/forge_os01_x108_v1/src/obsidia_structural_core/metrics.py:91-95 | the asymmetry raises ZeroDivisionError exactly on the empty graph; otherwise it is non-negative, and zero exactly when every node has the same weighted degree |
| Structural.Scores | obsidia/MVP-obsidia--main/resources/proofs/X108_ADVANCED_TESTS_PACK/obsidia/forge_os01_x108_v1/src/obsidia_structural_core/metrics.py:100 | the scores of the triangles, in order |
| Structural.StrongMeanAtLeastThreshold | obsidia/MVP-obsidia--main/resources/proofs/X108_ADVANCED_TESTS_PACK/obsidia/forge_os01_x108_v1/src/obsidia_structural_core/metrics.py:100 | the mean score of the strong triangles, when there are any, is at least theta_T |
| Structural.ComputeMetrics | obsidia/MVP-obsidia--main/resources/proofs/X108_ADVANCED_TESTS_PACK/obsidia/forge_os01_x108_v1/src/obsidia_structural_core/metrics.py:97-105 | definition of `compute_metrics`; its properties are MetricsCombineTheParts and MetricsLabels |
| Structural.MetricsCombineTheParts | obsidia/MVP-obsidia--main/resources/proofs/X108_ADVANCED_TESTS_PACK/obsidia/forge_os01_x108_v1/src/obsidia_structural_core/metrics.py:97-105 | compute_metrics raises exactly on the empty graph; otherwise it reports the strong triangles, their mean (0 when none, else at least theta_T), the best hexagon, a non-negative asymmetry, and S = alpha * mean + beta * hexagon score (0 when none) - gamma * asymmetry |
| Structural.Identity | obsidia/MVP-obsidia--main/resources/proofs/X108_ADVANCED_TESTS_PACK/obsidia/forge_os01_x108_v1/src/obsidia_structural_core/metrics.py:111-118 | the list 0, 1, ..., n - 1 |
| Structural.RelabelKeepsScores | obsidia/MVP-obsidia--main/resources/proofs/X108_ADVANCED_TESTS_PACK/obsidia/forge_os01_x108_v1/src/obsidia_structural_core/metrics.py:111-118 | relabelling keeps the number of triangles, every score, the mean, the asymmetry and S; relabelling by 0, ..., n - 1 changes nothing |
| Structural.MetricsLabels | obsidia/MVP-obsidia--main/resources/proofs/X108_ADVANCED_TESTS_PACK/obsidia/forge_os01_x108_v1/src/obsidia_structural_core/metrics.py:97-105 | the metrics of a graph name only its own nodes |
| Structural.CoreFixed | obsidia/MVP-obsidia--main/resources/proofs/X108_ADVANCED_TESTS_PACK/obsidia/forge_os01_x108_v1/src/obsidia_structural_core/metrics.py:120-123 | `compute_metrics_core_fixed` raises exactly on an empty core; its properties are CoreFixedSeesOnlyTheCore, CoreFixedRaisesIffEmptyCore and CoreFixedIsTheCoreBlock |
| Structural.CoreFixedSeesOnlyTheCore | obsidia/MVP-obsidia--main/resources/proofs/X108_ADVANCED_TESTS_PACK/obsidia/forge_os01_x108_v1/src/obsidia_structural_core/metrics.py:120-123 | two graphs that agree on the core block give the same core-fixed metrics, whatever they hold elsewhere |
| Structural.CoreFixedRaisesIffEmptyCore | obsidia/MVP-obsidia--main/resources/proofs/X108_ADVANCED_TESTS_PACK/obsidia/forge_os01_x108_v1/src/obsidia_structural_core/metrics.py:120-123 | the core-fixed metrics raise exactly when the core is empty |
| Structural.CoreFixedIsTheCoreBlock | obsidia/MVP-obsidia--main/resources/proofs/X108_ADVANCED_TESTS_PACK/obsidia/forge_os01_x108_v1/src/obsidia_structural_core/metrics.py:107-123 | the core-fixed metrics carry the S, asymmetry and triangle mean of the core block, and every strong triangle is a triple of core nodes |
| Structural.DecisionActHold | obsidia/MVP-obsidia--main/resources/proofs/X108_ADVANCED_TESTS_PACK/obsidia/forge_os01_x108_v1/src/obsidia_structural_core/metrics.py:125-126 | the decision is ACT or HOLD, and ACT exactly when S reaches theta_S |
| Os2.ScoresWithWitness | obsidia/MVP-obsidia--main/resources/proofs/X108_ADVANCED_TESTS_PACK/obsidia/forge_os01_x108_v1/src/obsidia_os2/metrics.py:27-30 | every score the innermost loop collects comes from a triple (i, j, k) with j < k whose closure reaches theta |
| Os2.ScoresWithHas | obsidia/MVP-obsidia--main/resources/proofs/X108_ADVANCED_TESTS_PACK/obsidia/forge_os01_x108_v1/src/obsidia_os2/metrics.py:27-30 | every such triple has its closure collected |
| Os2.ScoresFromWitness | obsidia/MVP-obsidia--main/resources/proofs/X108_ADVANCED_TESTS_PACK/obsidia/forge_os01_x108_v1/src/obsidia_os2/metrics.py:26-30 | every score the middle loop collects comes from a triple i < j < k that reaches theta |
| Os2.ScoresFromHas | obsidia/MVP-obsidia--main/resources/proofs/X108_ADVANCED_TESTS_PACK/obsidia/forge_os01_x108_v1/src/obsidia_os2/metrics.py:26-30 | every such triple has its closure collected |
| Os2.FromParts | obsidia/MVP-obsidia--main/resources/proofs/X108_ADVANCED_TESTS_PACK/obsidia/forge_os01_x108_v1/src/obsidia_os2/metrics.py:26 | a score collected up to j was collected before the last j, or at it |
| Os2.FromKeeps | obsidia/MVP-obsidia--main/resources/proofs/X108_ADVANCED_TESTS_PACK/obsidia/forge_os01_x108_v1/src/obsidia_os2/metrics.py:26 | one more value of j keeps the scores collected before |
| Os2.FromAdds | obsidia/MVP-obsidia--main/resources/proofs/X108_ADVANCED_TESTS_PACK/obsidia/forge_os01_x108_v1/src/obsidia_os2/metrics.py:26-30 | one more value of j adds its scores |
| Os2.ScoresBelowWitness | obsidia/MVP-obsidia--main/resources/proofs/X108_ADVANCED_TESTS_PACK/obsidia/forge_os01_x108_v1/src/obsidia_os2/metrics.py:25-30 | every score the outer loop collects comes from a triple i < j < k that reaches theta |
| Os2.ScoresBelowHas | obsidia/MVP-obsidia--main/resources/proofs/X108_ADVANCED_TESTS_PACK/obsidia/forge_os01_x108_v1/src/obsidia_os2/metrics.py:25-30 | every such triple has its closure collected |
| Os2.BelowParts | obsidia/MVP-obsidia--main/resources/proofs/X108_ADVANCED_TESTS_PACK/obsidia/forge_os01_x108_v1/src/obsidia_os2/metrics.py:25 | a score collected up to i was collected before the last i, or at it |
| Os2.BelowKeeps | obsidia/MVP-obsidia--main/resources/proofs/X108_ADVANCED_TESTS_PACK/obsidia/forge_os01_x108_v1/src/obsidia_os2/metrics.py:25 | one more value of i keeps the scores collected before |
| Os2.BelowAdds | obsidia/MVP-obsidia--main/resources/proofs/X108_ADVANCED_TESTS_PACK/obsidia/forge_os01_x108_v1/src/obsidia_os2/metrics.py:25-30 | one more value of i adds its scores |
| Os2.TriangleMeanAveragesTheTriples | obsidia/MVP-obsidia--main/resources/proofs/X108_ADVANCED_TESTS_PACK/obsidia/forge_os01_x108_v1/src/obsidia_os2/metrics.py:22-31 | the collected scores are exactly the closures of triples i < j < k that reach theta, with no edge required to be positive; their mean is 0 when there are none and at least theta otherwise |
| Os2.TriangleMean | obsidia/MVP-obsidia--main/resources/proofs/X108_ADVANCED_TESTS_PACK/obsidia/forge_os01_x108_v1/src/obsidia_os2/metrics.py:22-31 | the triple loop and the mean compute the triangle mean of the specification |
| Os2.AsymmetryNonNegative | obsidia/MVP-obsidia--main/resources/proofs/X108_ADVANCED_TESTS_PACK/obsidia/forge_os01_x108_v1/src/obsidia_os2/metrics.py:33-36 | the asymmetry raises ZeroDivisionError exactly on the empty matrix, and is otherwise non-negative |
| Os2.Meso | obsidia/MVP-obsidia--main/resources/proofs/X108_ADVANCED_TESTS_PACK/obsidia/forge_os01_x108_v1/src/obsidia_os2/metrics.py:42 | the meso proxy raises exactly on an empty block, and otherwise times k² gives the total weight of the block; its property is MesoBounds |
| Os2.MesoBounds | obsidia/MVP-obsidia--main/resources/proofs/X108_ADVANCED_TESTS_PACK/obsidia/forge_os01_x108_v1/src/obsidia_os2/metrics.py:42 | with every weight in [0, 1], the meso proxy H lies in [0, 1] |
| Os2.CoreFixed | obsidia/MVP-obsidia--main/resources/proofs/X108_ADVANCED_TESTS_PACK/obsidia/forge_os01_x108_v1/src/obsidia_os2/metrics.py:38-45 | `compute_metrics_core_fixed` raises exactly on an empty core, and its `A` is never negative; its properties are CoreFixedSeesOnlyTheCore and CoreFixedNeedsACore |
| Os2.CoreFixedSeesOnlyTheCore | obsidia/MVP-obsidia--main/resources/proofs/X108_ADVANCED_TESTS_PACK/obsidia/forge_os01_x108_v1/src/obsidia_os2/metrics.py:38-45 | two graphs that agree on the core block have the same core-fixed metrics |
| Os2.CoreFixedNeedsACore | obsidia/MVP-obsidia--main/resources/proofs/X108_ADVANCED_TESTS_PACK/obsidia/forge_os01_x108_v1/src/obsidia_os2/metrics.py:38-45 | an empty core raises ZeroDivisionError; any other core gives T the triangle mean of the block at threshold 0, H the meso proxy of the block, a non-negative A, and S = alpha * T + beta * H - gamma * A |
| Os2.DecisionActHold | obsidia/MVP-obsidia--main/resources/proofs/X108_ADVANCED_TESTS_PACK/obsidia/forge_os01_x108_v1/src/obsidia_os2/metrics.py:47-48 | the decision is ACT or HOLD, and ACT exactly when S reaches theta_S (0.25 by default) |
| Matrix.Submatrix | obsidia/MVP-obsidia--main/resources/proofs/X108_ADVANCED_TESTS_PACK/obsidia/forge_os01_x108_v1/src/obsidia_structural_core/metrics.py:107-109 | the submatrix of a list of nodes is square, one row per node, and entry (a, b) is the weight between the a-th and b-th node |
| Matrix.RowSums | obsidia/MVP-obsidia--main/resources/proofs/X108_ADVANCED_TESTS_PACK/obsidia/forge_os01_x108_v1/src/obsidia_structural_core/metrics.py:93 | the weighted degree of each node is the sum of its row |
| Matrix.SubmatrixSeesOnlyTheBlock | obsidia/MVP-obsidia--main/resources/proofs/X108_ADVANCED_TESTS_PACK/obsidia/forge_os01_x108_v1/src/obsidia_structural_core/metrics.py:107-109 | two matrices that agree on the block of the nodes have the same submatrix |
| Stats.MeanBounds | obsidia/MVP-obsidia--main/resources/proofs/X108_ADVANCED_TESTS_PACK/obsidia/forge_os01_x108_v1/src/obsidia_structural_core/metrics.py:40-41 | the mean of a non-empty list lies between any bounds of its elements, and the empty list gives 0 |
| Stats.MeanAtLeast | obsidia/MVP-obsidia--main/resources/proofs/X108_ADVANCED_TESTS_PACK/obsidia/forge_os01_x108_v1/src/obsidia_structural_core/metrics.py:40-41 | the mean of a non-empty list is at least any lower bound of its elements |
| Stats.VarNonNegative | obsidia/MVP-obsidia--main/resources/proofs/X108_ADVANCED_TESTS_PACK/obsidia/forge_os01_x108_v1/src/obsidia_structural_core/metrics.py:43-46 | the population variance is never negative, and is 0 for the empty list |
| Stats.MeanAbsDeviationZeroIffEqual | obsidia/MVP-obsidia--main/resources/proofs/X108_ADVANCED_TESTS_PACK/obsidia/forge_os01_x108_v1/src/obsidia_structural_core/metrics.py:91-95 | the mean absolute deviation raises ZeroDivisionError exactly on the empty list, is never negative, and is zero exactly when all the values are equal |
| Human.ThresholdsMet | obsidia/MVP-obsidia--main/src/score/human_algebra.py:3-14 | the count of level bounds a value reaches: bound k is reached exactly when k is below the count |
| Human.CountAtMost | obsidia/MVP-obsidia--main/src/score/human_algebra.py:3-14 | in an increasing list of bounds, the count of bounds at most v: bound k is at most v exactly when k is below the count |
| Human.QualitativeLevel | obsidia/MVP-obsidia--main/src/score/human_algebra.py:3-14 | the symbol is the one of the number of bounds 0.25, 0.45, 0.55, 0.75 the value reaches, every bound inclusive |
| Human.Rank | obsidia/MVP-obsidia--main/src/score/human_algebra.py:3-14 | the position of a symbol on the scale from lowest to highest |
| Human.QualitativeLevelMonotone | obsidia/MVP-obsidia--main/src/score/human_algebra.py:3-14 | every value gets one of the five symbols, and a larger value never gets a lower one |
| Human.LevelOf | obsidia/MVP-obsidia--main/src/score/human_algebra.py:3-14 | the level of a dict value raises TypeError exactly when the value is not a number, and is otherwise the value's symbol |
| Human.StabilityLevel | obsidia/MVP-obsidia--main/src/score/human_algebra.py:18-24 | stability is 1 - volatility with volatility defaulting to 0.5; a non-numeric volatility raises |
| Human.StabilityAntitone | obsidia/MVP-obsidia--main/src/score/human_algebra.py:23-26 | a higher volatility never gives a higher stability symbol |
| Human.FeaturesSummary | obsidia/MVP-obsidia--main/src/score/human_algebra.py:16-26 | the summary exists exactly when volatility, coherence and friction are numbers (0.5 when missing), and otherwise raises TypeError |
| Human.SummaryOfNoFeatures | obsidia/MVP-obsidia--main/src/score/human_algebra.py:16-26 | with no features every level is the middle symbol and the regime is "unknown" |
| Human.LawItems | obsidia/MVP-obsidia--main/src/score/human_algebra.py:34 | the items of the laws are a list's elements, a string's characters or a dict's keys; anything else is not iterable |
| Human.LawLines | obsidia/MVP-obsidia--main/src/score/human_algebra.py:34 | one "- law" line per item, in order |
| Human.LawsText | obsidia/MVP-obsidia--main/src/score/human_algebra.py:34 | no laws (any falsy value) read as the dash; otherwise the text exists exactly when the laws are iterable |
| Human.GatesExplainer | obsidia/MVP-obsidia--main/src/score/human_algebra.py:28-40 | the explanation exists exactly when the laws section does, and starts with the decision (default UNKNOWN) and the reason (default empty) and ends with a newline |
| Human.NoLawsReadsDash | obsidia/MVP-obsidia--main/src/score/human_algebra.py:32-40 | without laws the section reads the dash |
| Human.OneLinePerLaw | obsidia/MVP-obsidia--main/src/score/human_algebra.py:34 | a non-empty list of one-line laws gives back exactly one "- law" line per law, in order, when the section is split on newlines |
| Domains.GetDomainConfig | MVP-obsidia--main/src/domains_data.py:123-125 | the configuration is an entry of the table, and the Unified one for an unknown domain |
| Domains.EveryEntryIsSane | MVP-obsidia--main/src/domains_data.py:6-121 | every entry of the table has a threshold in [0, 1] and a positive tau |
| Domains.GetDomainCriticalThreshold | MVP-obsidia--main/src/domains_data.py:182-185 | the threshold is always in [0, 1], and 0.8 for an unknown domain |
| Domains.GetDomainRecommendedTau | MVP-obsidia--main/src/domains_data.py:187-190 | tau is always positive, and 10.0 for an unknown domain |
| Domains.MedicalWaitsLongest | MVP-obsidia--main/src/domains_data.py:6-121 | the medical domain recommends tau 30.0, the longest of all domains |
| Domains.GetDomainScenarios | MVP-obsidia--main/src/domains_data.py:192-195 | the typical scenarios are never empty, and those of Unified for an unknown domain |
| Domains.GetDomainDescription | MVP-obsidia--main/src/domains_data.py:197-202 | the description is the icon, a space, then the description text |
| Domains.IsActionCritical | MVP-obsidia--main/src/domains_data.py:204-208 | an action is critical exactly when the domain is in the table, its entry lists critical actions, and the upper-cased action is one of them; so an unknown domain, which falls back to Unified with no list, finds nothing critical |
| Domains.UpperIgnoresCase | MVP-obsidia--main/src/domains_data.py:208 | upper-casing is idempotent and ignores the case of its input |
| Domains.CriticalIgnoresCase | MVP-obsidia--main/src/domains_data.py:204-208 | the case in which an action is written does not change whether it is critical |
| Domains.MedicalCriticalUpperCase | MVP-obsidia--main/src/domains_data.py:6-121 | the medical critical actions are written in upper case |
| Domains.LegalCriticalUpperCase | MVP-obsidia--main/src/domains_data.py:6-121 | the legal critical actions are written in upper case |
| Domains.DriveCriticalUpperCase | MVP-obsidia--main/src/domains_data.py:6-121 | the driving critical actions are written in upper case |
| Domains.FactoryCriticalUpperCase | MVP-obsidia--main/src/domains_data.py:6-121 | the factory critical actions are written in upper case |
| Domains.TableActionsAreUpperCase | MVP-obsidia--main/src/domains_data.py:6-121 | every critical action in the table is in upper case |
| Domains.ListedActionsAreCritical | MVP-obsidia--main/src/domains_data.py:204-208 | every critical action of the table is recognised in its own domain, in any case |
| Scenarios.GetScenarioById | MVP-obsidia--main/src/scenarios.py:16-21 | the lookup gives None exactly when no scenario has the id, and otherwise the first scenario that has it |
| Scenarios.FirstMatchIsUnique | MVP-obsidia--main/src/scenarios.py:16-21 | at most one scenario is the first with a given id |
| Scenarios.ApplyScenario | MVP-obsidia--main/src/scenarios.py:23-34 | the parameters have exactly the eight keys; each is taken from the scenario when it has the key, and otherwise is the default: seed 42, intent and market_conditions {}, time_elapsed 0.0, tau 10.0, and None for simulation_override, expected_decision and expected_reason |
| Scenarios.DefaultParameters | MVP-obsidia--main/src/scenarios.py:23-34 | for a scenario that sets nothing: seed 42, empty intent and market conditions, time elapsed 0.0, tau 10.0, and None for the override and the expectations |
| Scenarios.ApplyScenarioIdempotent | MVP-obsidia--main/src/scenarios.py:23-34 | applying the parameters as a scenario again changes nothing |
| Scenarios.ApplyScenarioIgnoresOtherKeys | MVP-obsidia--main/src/scenarios.py:23-34 | only the eight parameter keys of a scenario matter |
| Convert.AsDict | MVP-obsidia--main/resources/proofs/X108_ADVANCED_TESTS_PACK/obsidia/forge_os01_x108_v1/tools/convert_x108_zips_to_json.py:101-108 | the record becomes a dict with exactly the six keys id, time_elapsed, IST, CMEC, irreversible and raw_source, each holding the record's field |
| Convert.FloatFieldDefault | MVP-obsidia--main/resources/proofs/X108_ADVANCED_TESTS_PACK/obsidia/forge_os01_x108_v1/tools/convert_x108_zips_to_json.py:75-82 | when no candidate column holds a parsable number, the field takes the default |
| Convert.FloatFieldFirst | MVP-obsidia--main/resources/proofs/X108_ADVANCED_TESTS_PACK/obsidia/forge_os01_x108_v1/tools/convert_x108_zips_to_json.py:75-82 | otherwise the field is the number in the first candidate column that holds one |
| Convert.FirstFloatShifts | MVP-obsidia--main/resources/proofs/X108_ADVANCED_TESTS_PACK/obsidia/forge_os01_x108_v1/tools/convert_x108_zips_to_json.py:76-81 | skipping a first column with no number finds the same first usable column in the rest |
| Convert.BoolFieldDefault | MVP-obsidia--main/resources/proofs/X108_ADVANCED_TESTS_PACK/obsidia/forge_os01_x108_v1/tools/convert_x108_zips_to_json.py:84-92 | when no candidate column holds a recognised yes/no word, the flag takes the default |
| Convert.BoolFieldFirst | MVP-obsidia--main/resources/proofs/X108_ADVANCED_TESTS_PACK/obsidia/forge_os01_x108_v1/tools/convert_x108_zips_to_json.py:84-92 | otherwise the flag is true exactly when the first column holding a recognised word holds a yes word |
| Convert.FirstBoolShifts | MVP-obsidia--main/resources/proofs/X108_ADVANCED_TESTS_PACK/obsidia/forge_os01_x108_v1/tools/convert_x108_zips_to_json.py:85-91 | skipping a first column with no yes/no word finds the same first usable column in the rest |
| Convert.YesAndNoAreDisjoint | MVP-obsidia--main/resources/proofs/X108_ADVANCED_TESTS_PACK/obsidia/forge_os01_x108_v1/tools/convert_x108_zips_to_json.py:88-91 | no word is both a yes word and a no word |
| Convert.RowId | MVP-obsidia--main/resources/proofs/X108_ADVANCED_TESTS_PACK/obsidia/forge_os01_x108_v1/tools/convert_x108_zips_to_json.py:99 | the id is never empty: the first filled of id, scenario and name, else "source#idx" |
| Convert.NormalizeRow | MVP-obsidia--main/resources/proofs/X108_ADVANCED_TESTS_PACK/obsidia/forge_os01_x108_v1/tools/convert_x108_zips_to_json.py:73-108 | the normalised row has a non-empty id and carries its source |
| Convert.NormalizeEmptyRow | MVP-obsidia--main/resources/proofs/X108_ADVANCED_TESTS_PACK/obsidia/forge_os01_x108_v1/tools/convert_x108_zips_to_json.py:94-108 | a row with none of the expected columns gets time 0.0, IST 0.0, CMEC 0.0, irreversible true and the id "source#idx" |
| Convert.ReversibleWhenSaidSo | MVP-obsidia--main/resources/proofs/X108_ADVANCED_TESTS_PACK/obsidia/forge_os01_x108_v1/tools/convert_x108_zips_to_json.py:97 | a recognised no word in the first irreversibility column makes the scenario reversible |
| Convert.JsonCandidates | MVP-obsidia--main/resources/proofs/X108_ADVANCED_TESTS_PACK/obsidia/forge_os01_x108_v1/tools/convert_x108_zips_to_json.py:118 | a member is a JSON candidate exactly when its lower-cased name ends in .json |
| Convert.PyCandidates | MVP-obsidia--main/resources/proofs/X108_ADVANCED_TESTS_PACK/obsidia/forge_os01_x108_v1/tools/convert_x108_zips_to_json.py:164 | a member is a Python candidate exactly when its lower-cased name ends in .py |
| Convert.CsvCandidates | MVP-obsidia--main/resources/proofs/X108_ADVANCED_TESTS_PACK/obsidia/forge_os01_x108_v1/tools/convert_x108_zips_to_json.py:141-149 | the table candidates are exactly the .csv members (plain) and the .gz members whose name mentions csv (compressed) |
| Convert.JsonItem | MVP-obsidia--main/resources/proofs/X108_ADVANCED_TESTS_PACK/obsidia/forge_os01_x108_v1/tools/convert_x108_zips_to_json.py:123-133 | a non-dict item adds nothing; a dict item gives a record carrying the member's source, or raises exactly when one of its numeric fields does not convert |
| Convert.Enumerated | MVP-obsidia--main/resources/proofs/X108_ADVANCED_TESTS_PACK/obsidia/forge_os01_x108_v1/tools/convert_x108_zips_to_json.py:156-157 | one record per row, in order, each built from its row and its index |
| Convert.Room | MVP-obsidia--main/resources/proofs/X108_ADVANCED_TESTS_PACK/obsidia/forge_os01_x108_v1/tools/convert_x108_zips_to_json.py:156 | the rows taken never exceed those available, fill the list up to the limit when fewer are taken, and never go past the limit unless none are taken |
| Convert.JsonItemsKept | MVP-obsidia--main/resources/proofs/X108_ADVANCED_TESTS_PACK/obsidia/forge_os01_x108_v1/tools/convert_x108_zips_to_json.py:123-135 | a JSON scan that continues leaves fewer records than the limit (or none); a finished one returns at most the bound |
| Convert.JsonFilesKept | MVP-obsidia--main/resources/proofs/X108_ADVANCED_TESTS_PACK/obsidia/forge_os01_x108_v1/tools/convert_x108_zips_to_json.py:119-138 | the same over all JSON members |
| Convert.CsvFilesKept | MVP-obsidia--main/resources/proofs/X108_ADVANCED_TESTS_PACK/obsidia/forge_os01_x108_v1/tools/convert_x108_zips_to_json.py:151-161 | the same over all table members |
| Convert.PyFilesKept | MVP-obsidia--main/resources/proofs/X108_ADVANCED_TESTS_PACK/obsidia/forge_os01_x108_v1/tools/convert_x108_zips_to_json.py:165-184 | the same over all Python members |
| Convert.ExtractBound | MVP-obsidia--main/resources/proofs/X108_ADVANCED_TESTS_PACK/obsidia/forge_os01_x108_v1/tools/convert_x108_zips_to_json.py:111-186 | the extraction returns at most limit records for a positive limit and at most one otherwise |
| Convert.ZeroLimitReturnsOne | MVP-obsidia--main/resources/proofs/X108_ADVANCED_TESTS_PACK/obsidia/forge_os01_x108_v1/tools/convert_x108_zips_to_json.py:133-135 | with limit 0 a JSON list of one object still yields one scenario, since the limit is checked only after appending |
| Convert.CappedItems | MVP-obsidia--main/resources/proofs/X108_ADVANCED_TESTS_PACK/obsidia/forge_os01_x108_v1/tools/convert_x108_zips_to_json.py:123-135 | with the limit checked before appending, a JSON scan never holds more than limit records |
| Convert.CappedJsonFiles | MVP-obsidia--main/resources/proofs/X108_ADVANCED_TESTS_PACK/obsidia/forge_os01_x108_v1/tools/convert_x108_zips_to_json.py:119-138 | the same over all JSON members |
| Convert.FullCsvFiles | MVP-obsidia--main/resources/proofs/X108_ADVANCED_TESTS_PACK/obsidia/forge_os01_x108_v1/tools/convert_x108_zips_to_json.py:151-161 | with no room left and nothing found, the tables add nothing |
| Convert.FullPyFiles | MVP-obsidia--main/resources/proofs/X108_ADVANCED_TESTS_PACK/obsidia/forge_os01_x108_v1/tools/convert_x108_zips_to_json.py:165-184 | with no room left and nothing found, the Python sources add nothing |
| Convert.ExtractCappedWithinLimit | MVP-obsidia--main/resources/proofs/X108_ADVANCED_TESTS_PACK/obsidia/forge_os01_x108_v1/tools/convert_x108_zips_to_json.py:111-186 | with the check before appending, the extraction never returns more than max(0, limit) records |
| Convert.CapAgreesItems | MVP-obsidia--main/resources/proofs/X108_ADVANCED_TESTS_PACK/obsidia/forge_os01_x108_v1/tools/convert_x108_zips_to_json.py:123-135 | for a positive limit the extra check never fires on a JSON list |
| Convert.CapAgreesFiles | MVP-obsidia--main/resources/proofs/X108_ADVANCED_TESTS_PACK/obsidia/forge_os01_x108_v1/tools/convert_x108_zips_to_json.py:119-138 | the same over all JSON members |
| Convert.ExtractCappedAgrees | MVP-obsidia--main/resources/proofs/X108_ADVANCED_TESTS_PACK/obsidia/forge_os01_x108_v1/tools/convert_x108_zips_to_json.py:111-186 | for a positive limit the corrected extraction returns exactly what the code returns |
| Convert.ScanJsonList | MVP-obsidia--main/resources/proofs/X108_ADVANCED_TESTS_PACK/obsidia/forge_os01_x108_v1/tools/convert_x108_zips_to_json.py:123-135 | the loop over one JSON list computes the list scan |
| Convert.ScanJsonFiles | MVP-obsidia--main/resources/proofs/X108_ADVANCED_TESTS_PACK/obsidia/forge_os01_x108_v1/tools/convert_x108_zips_to_json.py:119-138 | the loop over the JSON members computes the JSON pass |
| Convert.AppendEnumerated | MVP-obsidia--main/resources/proofs/X108_ADVANCED_TESTS_PACK/obsidia/forge_os01_x108_v1/tools/convert_x108_zips_to_json.py:156-157 | appending the enumerated records leaves the start followed by one record per row |
| Convert.ScanCsvFiles | MVP-obsidia--main/resources/proofs/X108_ADVANCED_TESTS_PACK/obsidia/forge_os01_x108_v1/tools/convert_x108_zips_to_json.py:151-161 | the loop over the tables computes the CSV pass |
| Convert.ScanPyFiles | MVP-obsidia--main/resources/proofs/X108_ADVANCED_TESTS_PACK/obsidia/forge_os01_x108_v1/tools/convert_x108_zips_to_json.py:165-184 | the loop over the Python sources computes the Python pass |
| Convert.ExtractScenariosFromZip | MVP-obsidia--main/resources/proofs/X108_ADVANCED_TESTS_PACK/obsidia/forge_os01_x108_v1/tools/convert_x108_zips_to_json.py:111-186 | the method returns the three-pass extraction and never more than the bound |
| SessionState.Initialised | obsidia/MVP-obsidia--main/src/state_manager.py:5-24 | the configuration and the flags get their defaults when missing; every key already present keeps its value |
| SessionState.InitialisedIdempotent | obsidia/MVP-obsidia--main/src/state_manager.py:5-24 | initialising twice is the same as initialising once, and keeps the state well shaped |
| SessionState.UpdateConfig | obsidia/MVP-obsidia--main/src/state_manager.py:26-63 | an update keeps the configuration and the flags dicts |
| SessionState.Lookup | obsidia/MVP-obsidia--main/src/state_manager.py:80 | indexing succeeds exactly for a present key and raises KeyError otherwise |
| SessionState.Hash | obsidia/MVP-obsidia--main/src/state_manager.py:80-92 | the fingerprint is available exactly when seed and domain (and tau, for governance) are configured |
| SessionState.Mark | obsidia/MVP-obsidia--main/src/state_manager.py:75-92 | marking keeps the configuration and the flags dicts |
| SessionState.IsValid | obsidia/MVP-obsidia--main/src/state_manager.py:94-119 | data count as valid exactly when the flags exist, the kind's flag is set and truthy, the config hashes, and the stored hash equals it; it raises exactly when the flags or the kind's flag are missing, or the flag is truthy and the config is missing or fails to hash |
| SessionState.NoChangeNoRecompute | obsidia/MVP-obsidia--main/src/state_manager.py:31-63 | an unknown key or an equal value leaves the state as it was and asks for no recompute |
| SessionState.SeedOrDomainChangeInvalidates | obsidia/MVP-obsidia--main/src/state_manager.py:36-54 | a changed seed or domain is stored, clears all three flags, drops the cached features, simulation and gates result, keeps every other key, and asks for a recompute |
| SessionState.TauChangeInvalidatesGovernance | obsidia/MVP-obsidia--main/src/state_manager.py:56-61 | a changed tau is stored, clears only the governance flag, drops only the gates result, and asks for a recompute |
| SessionState.OtherChangeIsOnlyStored | obsidia/MVP-obsidia--main/src/state_manager.py:36-63 | a changed mode is stored with nothing invalidated and no recompute |
| SessionState.MarkThenValid | obsidia/MVP-obsidia--main/src/state_manager.py:75-119 | right after marking, the data count as valid for the current configuration |
| SessionState.SeedChangeThenInvalid | obsidia/MVP-obsidia--main/src/state_manager.py:40-119 | after a seed or domain change none of the three kinds of data is valid |
| SessionState.TauChangeThenValidity | obsidia/MVP-obsidia--main/src/state_manager.py:56-119 | after a tau change the governance result is invalid while features and simulation keep their validity |
| SessionState.Session.constructor | obsidia/MVP-obsidia--main/src/state_manager.py:5 | the session starts from the given well-shaped state |
| SessionState.Session.InitConfigState | obsidia/MVP-obsidia--main/src/state_manager.py:5-24 | the new state is the initialised old state |
| SessionState.Session.InvalidateAll | obsidia/MVP-obsidia--main/src/state_manager.py:42-52 | the three flags are cleared and the three caches dropped, nothing else changes |
| SessionState.Session.InvalidateGovernance | obsidia/MVP-obsidia--main/src/state_manager.py:58-60 | the governance flag is cleared and the gates result dropped, nothing else changes |
| SessionState.Session.Update | obsidia/MVP-obsidia--main/src/state_manager.py:26-63 | the in-place update returns and leaves what the update function describes |
| SessionState.Session.MarkDone | obsidia/MVP-obsidia--main/src/state_manager.py:75-92 | the in-place marking raises or leaves what the marking function describes |
| ConsoleLock.IsConsoleLocked | MVP-obsidia--main/src/console_lock.py:4-27 | nothing is locked outside guided mode; in guided mode the check raises exactly on a non-numeric step, and only a lockable section can be locked |
| ConsoleLock.LockedIffPastFirstStep | MVP-obsidia--main/src/console_lock.py:17-27 | in guided mode a section is locked exactly when it is config, temporal or scenarios and the step is past 1 |
| ConsoleLock.FirstStepUnlocked | MVP-obsidia--main/src/console_lock.py:17-27 | with no step recorded (the default step 1) nothing is locked |
| ConsoleLock.CurrentSettings | MVP-obsidia--main/src/console_lock.py:55-60 | the current settings hold exactly mode, domain, seed and tau |
| ConsoleLock.Validated | MVP-obsidia--main/src/console_lock.py:64-71 | validation adds the validated settings and changes no other key nor the current settings |
| ConsoleLock.MarkConfigValidated | MVP-obsidia--main/src/console_lock.py:64-71 | the session's new state is the validated old state |
| ConsoleLock.CheckConfigChanged | MVP-obsidia--main/src/console_lock.py:44-62 | definition of `check_config_changed`; its properties are UnchangedAfterValidation and ChangedIffASettingDiffers |
| ConsoleLock.UnchangedAfterValidation | MVP-obsidia--main/src/console_lock.py:44-71 | right after validation the configuration does not count as changed |
| ConsoleLock.ChangedIffASettingDiffers | MVP-obsidia--main/src/console_lock.py:44-62 | once validated, the configuration has changed exactly when one of mode, domain, seed and tau differs from its validated value |
| TradingState.RunState.Backtest | obsidia/MVP-obsidia--main/resources/proofs/X108_ADVANCED_TESTS_PACK/trading/trading-agent-erc8004-x108/scripts/run_backtest.py:35-40 | the run state starts with last investment at 0.0, the equity curve [1.0], no losses and no cooldown |

## Left out

- File, JSON and log I/O: the jsonl logs and artifacts of the backtest and the pipeline, `load_scenarios`, and the zip, gzip and CSV reading of the converter. The converter's readers are the fields of `Convert.Pack`. Its regular expression for (time, IST, CMEC) tuples is the `readPy` reader.
- Clocks: `time.time()` and the sandbox's wall clock are parameters, or the times given in the program.
- Numerics that need square roots or sampling: `np.std` and `realized_vol` are parameters. `np.mean` is a parameter only in `Features.RegimeFromReturns` and `Features.ExtractFeatures`. The backtest's mean of the score window, in `Backtest.Step`, `Backtest.Screen` and `Backtest.Guard`, is the exact `Stats.Mean`. Monte Carlo simulation, the random scenario generators (`generate_fallback_scenarios`, `generate_domain_specific_data`) and the percentile and CVaR code are not modelled.
- Floating-point rounding: every float is an exact real. The clock-skew test's `t0 + tau - 1e-9` holds by the exact rule, whatever IEEE rounding of a large `time.time()` would do.
- The rendering of values: `str()` and f-string formatting are parameters (`Printer`, `Builtins`, `show`). The model does not fix how a particular number is printed.
- Values.ToFloat: `float()` of a text follows `Text.ParseFloat`: optional surrounding whitespace, an optional sign, ASCII digits with an optional point, and an optional `e`/`E` exponent. Python also accepts underscores between digits ("1_000"), "inf", "nan", "Infinity" and non-ASCII digits; the model raises `ValueError` on those.
- Dict key order: where the code iterates over a dict (the laws of a gates result), the order is a parameter.
- `Values.PyEq` compares nested lists and dicts one level deep. This is enough for the scalar settings, flags and hashes compared in the modelled code.
- `Text.Upper` and `Text.Lower` map ASCII letters only.
- The Streamlit UI: the `render_*` functions, messages and pages. The accessors `get_config`, `get_data_flags` and `get_unique_key` are not modelled either.
- Backtest inputs: the features, the simulated projection and the score of each step are inputs (`coherenceAt`, `scoreAt`). `sim_lite_bootstrap`, `projection`, `extract_features` and `compute_score` are not re-run inside the loop. The dry-run execution record and its metadata are not modelled.
- The fallbacks of `Domains` lookups that read a missing field are unreachable, since every table entry has the field. They are modelled through the table and not proved separately.
- TradingState.RunSnapshot: each key of the run-state dict is an `Option` of its number type (or list of numbers), so `None` stands only for an absent key. A present key holding a value of another type cannot be represented, so the `TypeError` gates 2 and 3 would raise on it is not modelled.
- RoiPolicy.RoiConfig: holds `default_risk_level`, `roi_cooldown_steps`, `strategy_change_min_persist_steps` and `risk_levels` already converted to numbers. The source reads `cfg[...]` on the path that uses each key and converts it there (roi.py lines 14, 38, 43 and 51). The model therefore does not capture three behaviours:
  - the `KeyError` of a missing key, raised only on the path that reads it (`roi_cooldown_steps` is read only without a kill and outside safe mode);
  - the `ValueError` or `TypeError` of `int()` or `float()` on a bad value;
  - the truncation by `int()` of a fractional setting such as 2.7.
- Gate3RiskKill.RiskConfig: holds `max_drawdown`, `max_volatility`, `max_consecutive_losses` and `cooldown_steps` already converted. The source converts them where it reads them (gate3_risk_killswitch.py lines 23-30). The same three behaviours are not captured: a `KeyError` only on the rule that reads the key, a conversion error on a bad value, and `int()` truncating a fractional `cooldown_steps` or `max_consecutive_losses`.
- Backtest.BacktestConfig: holds `coherence_threshold` and `hold_seconds` as numbers, and the gate 3 and ROI settings as the two records above. The source reads them from the loaded config on each use (run_backtest.py lines 72, 95, 101 and 104). A missing key's `KeyError` and a non-numeric value's `TypeError` in a comparison are not captured, nor the conversions of the nested records. The simulation and score settings read at lines 58-61 and 90 are not part of the record: those steps are inputs.
- Matrix.Submatrix: requires every core node to be in [0, |w|). Python would wrap a negative index to the end of the row and raise `IndexError` past the end; neither is modelled.
- Structural.CoreFixed: the same requirement on the core, for the same reason.
- Os2.CoreFixed: the same requirement on the core, for the same reason.
- Sandbox.Arith: `+` and `*` on two lists (concatenation and repetition) raise `TypeError` in the model; Python computes them.
- Sandbox.Compare: `<` and the other orderings on two lists (or two tuples) compare lexicographically in Python; the model raises `TypeError`. Numbers and strings are ordered as in Python.
- Sandbox.Equal: equality of lists and dicts is structural, so containers holding 1 and 1.0 differ in the model, where Python's `==` calls them equal.
- Structural metrics are stated for square matrices, the adjacency matrices the code builds. A ragged or non-square list of rows, on which the Python code would raise `IndexError` or read only part of the matrix, is excluded by `requires Square(w)`.
- The sandbox's log detail strings and the text of the `CALL` error message are not modelled; the error code is.
- A callable `COND` expression (`callable(x)` in `_eval`) is not modelled: conditions are IR expressions.
- `structural_gate_optional` in os1.py, the optional OS2 hook, is not modelled.
- OS1's parser (`parse_input`) is an input: the parsed dict or the exception it raised. `run_request`'s unused `contract` argument is not modelled.
- `main()` and argument parsing of the converter and the backtest, and the demo and runner scripts, are not modelled.
- Concurrency: there is none in the source; everything is single-threaded.

## Findings

| source | as written | input that shows it | evidently intended | confidence | as-written member | corrected member |
|---|---|---|---|---|---|---|
| obsidia/MVP-obsidia--main/resources/proofs/X108_ADVANCED_TESTS_PACK/trading/tests_advanced/test_t0_jitter_guard.py:13-15 | a write within 1e-12 of the stored t0 is accepted and overwrites it, so repeated small moves drift t0 | calls with t0 = 0, then 1e-12, then 2e-12 for the same intent: all accepted, t0 ends at 2e-12 | t0 is write-once and never moves ("must not move") | not executed | IntentRegistry.AsWrittenT0Drifts | IntentRegistry.RecordedOnceNeverMoves |
| MVP-obsidia--main/resources/proofs/X108_ADVANCED_TESTS_PACK/obsidia/forge_os01_x108_v1/src/obsidia_os1/os1.py:110 | the exported log row reads an operation attribute the log entries do not have, so its operation is always None | the program [STATE("x")] | each row names the node class its entry logged; `RunRequest` with `Intended` exports these rows | not executed | Os1.ReadingsDifferOnLog | Os1.RowsKeepTheLog |
| MVP-obsidia--main/resources/proofs/X108_ADVANCED_TESTS_PACK/obsidia/forge_os01_x108_v1/src/obsidia_os1/os1.py:133 | the report calls `.get` on the program's result, which raises when the result is not a dict | the program [RETURN(1)], allowed by the gate | a report with no status for a non-dict result; `RunRequest` with `Intended` reports that way | not executed | Os1.ReadingsDifferOnReturn | Os1.Status |
| MVP-obsidia--main/resources/proofs/X108_ADVANCED_TESTS_PACK/obsidia/forge_os01_x108_v1/tools/convert_x108_zips_to_json.py:133-135 | the JSON pass appends a record before comparing the count with the limit | limit 0 and a pack with one JSON member holding [{}]: one scenario is returned | never more than max(0, limit) scenarios | not executed | Convert.ZeroLimitReturnsOne | Convert.ExtractCappedWithinLimit |
