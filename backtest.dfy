/**
 * The step loop of the backtest: each step ticks the cooldown, builds a
 * candidate intent, runs gate 1, gate 2 and gate 3 and the ROI policy in that
 * order, stops at the first refusal, and on an executed step does the
 * investment, equity and loss bookkeeping. Features, the simulated
 * projection and the score are inputs given per step; logging is left out.
 */
module Backtest {
  import opened Wrappers
  import opened Values
  import opened TradingState
  import Gate1Integrity
  import Gate2Temporal
  import Gate3RiskKill
  import opened RoiPolicy
  import opened Stats

  /** The configuration file, with its values already converted. */
  datatype BacktestConfig = BacktestConfig(
    asset: string,
    coherenceThreshold: real,
    holdSeconds: real,
    gate3: Gate3RiskKill.RiskConfig,
    roi: RoiConfig)

  /** The first step of the loop: the first 60 returns are history only. */
  const FirstStep: nat := 60

  /** The number of scores the mean is taken over. */
  const ScoreWindow: nat := 100

  /** Everything the loop carries from one step to the next. */
  datatype Carry = Carry(run: RunSnapshot, roi: RoiSnapshot, scores: seq<real>, equity: real)

  /** What happened at one step. */
  datatype StepLog =
    | Gate1Refused(reason: string)
    | Gate2Refused(reason: string)
    | Gate3Refused(reason: string, action: RoiAction)
    | SafeModeRefused(action: RoiAction)
    | Executed(buy: bool, amount: real, pnl: real, action: RoiAction)

  function StartCarry(cfg: BacktestConfig): Carry {
    Carry(BacktestStart, InitialSnapshot(cfg.roi), [], 1.0)
  }

  /** `state["cooldown_remaining"] -= 1` when positive. */
  function Tick(run: RunSnapshot): (r: Result<RunSnapshot>)
    ensures run.cooldownRemaining.None? <==> r.Raise?
    ensures r.Ok? ==> r.value == run.(cooldownRemaining := Some(
                        if run.cooldownRemaining.value > 0 then run.cooldownRemaining.value - 1 else run.cooldownRemaining.value))
  {
    match run.cooldownRemaining
    case None => Raise(KeyError("cooldown_remaining"))
    case Some(c) => Ok(if c > 0 then run.(cooldownRemaining := Some(c - 1)) else run)
  }

  /** `max(0.0, x)`. */
  function NonNegativePart(x: real): (r: real)
    ensures r >= 0.0 && r >= x && (r == x || r == 0.0)
  {
    if x > 0.0 then x else 0.0
  }

  /** The candidate intent built at step `t`. */
  function Candidate(asset: string, buy: bool, amount: real, t: nat, coherence: real): Dict {
    map["asset" := VStr(asset), "side" := VStr(if buy then "BUY" else "SELL"), "amount" := VFloat(amount),
        "timestamp" := VFloat(t as real), "coherence" := VFloat(coherence)]
  }

  /** What gate 1 can still object to in a candidate, whose fields are all present and whose side is valid. */
  function CandidateCheck(amount: real, coherence: real): GateResult {
    if amount <= 0.0 then GateResult(false, "invalid_intent_amount")
    else if !(0.0 <= coherence <= 1.0) then GateResult(false, "invalid_intent_coherence")
    else Pass
  }

  /** Gate 1 on a candidate refuses only a non-positive amount or a coherence outside [0, 1], and never raises. */
  lemma CandidateValidation(asset: string, buy: bool, amount: real, t: nat, coherence: real)
    ensures Gate1Integrity.Validate(Candidate(asset, buy, amount, t, coherence)) == Ok(CandidateCheck(amount, coherence))
  {
    var c := Candidate(asset, buy, amount, t, coherence);
    Gate1Integrity.NoneMissing(c);
  }

  /** The book-keeping of an executed step: investment time, equity and losses. */
  function Book(run: RunSnapshot, t: nat, pnl: real, equity: real): Result<RunSnapshot> {
    if run.equityCurve.None? then Raise(KeyError("equity_curve"))
    else if run.consecutiveLosses.None? then Raise(KeyError("consecutive_losses"))
    else Ok(run.(lastInvestTs := Some(t as real),
                 equityCurve := Some(run.equityCurve.value + [equity]),
                 consecutiveLosses := Some(if pnl < 0.0 then run.consecutiveLosses.value + 1 else 0)))
  }

  /**
   * One iteration of the loop at step `t`, with the coherence of the
   * features and the score of the projection at that step: the cooldown
   * ticks, then the candidate is screened.
   */
  function Step(c: Carry, t: nat, priceReturns: seq<real>, coherence: real, score: real,
                cfg: BacktestConfig, std: seq<real> -> real): Result<(Carry, StepLog)>
    requires 1 <= t < |priceReturns|
  {
    var run :- Tick(c.run);
    Screen(c.(run := run), t, priceReturns, coherence, score, cfg, std)
  }

  /**
   * Gate 1 on the candidate (through `CandidateCheck`, which is what gate 1
   * answers on it), then the score window, then gate 2.
   */
  function Screen(c: Carry, t: nat, priceReturns: seq<real>, coherence: real, score: real,
                  cfg: BacktestConfig, std: seq<real> -> real): Result<(Carry, StepLog)>
    requires 1 <= t < |priceReturns|
  {
    var buy := coherence >= cfg.coherenceThreshold;
    var amount := NonNegativePart(c.roi.riskLevel);
    var g1 := CandidateCheck(amount, coherence);
    if !g1.ok then Ok((c, Gate1Refused(g1.reason)))
    else
      var scores := Gate3RiskKill.LastN(c.scores + [score], ScoreWindow);
      var g2 := Gate2Temporal.Check(c.run, t as real, cfg.holdSeconds, coherence, cfg.coherenceThreshold);
      if !g2.ok then Ok((c.(scores := scores), Gate2Refused(g2.reason)))
      else Guard(c.(scores := scores), t, priceReturns, buy, amount, cfg, std)
  }

  /** Gate 3, whose kill or cooldown is handed to the ROI policy; a pass goes on to `Proceed`. */
  function Guard(c: Carry, t: nat, priceReturns: seq<real>, buy: bool, amount: real,
                 cfg: BacktestConfig, std: seq<real> -> real): Result<(Carry, StepLog)>
    requires 1 <= t < |priceReturns|
  {
    var k :- Gate3RiskKill.RiskKill(c.run, priceReturns[..t], cfg.gate3, std);
    if !k.0.ok then
      var d :- RoiDecide(c.roi, t, Mean(c.scores), cfg.roi, Some(k.0.reason));
      Ok((c.(run := k.1, roi := d.1), Gate3Refused(k.0.reason, d.0)))
    else Proceed(c.(run := k.1), t, priceReturns, buy, amount, cfg)
  }

  /** The ROI policy on its own, a stop in safe mode, and otherwise the execution. */
  function Proceed(c: Carry, t: nat, priceReturns: seq<real>, buy: bool, amount: real, cfg: BacktestConfig): Result<(Carry, StepLog)>
    requires 1 <= t < |priceReturns|
  {
    var d :- RoiDecide(c.roi, t, Mean(c.scores), cfg.roi, None);
    if d.1.safeMode then Ok((c.(roi := d.1), SafeModeRefused(d.0)))
    else
      var pnl := (if buy then 1.0 else -1.0) * amount * priceReturns[t - 1];
      var equity := c.equity * (1.0 + pnl);
      var booked :- Book(c.run, t, pnl, equity);
      Ok((Carry(booked, d.1, c.scores, equity), Executed(buy, amount, pnl, d.0)))
  }

  /** One step of the loop, as a function of the carry and the step number. */
  type StepFunction = (Carry, nat) -> Result<(Carry, StepLog)>

  /** The loop after the steps `FirstStep .. n-1` of `step` from `start`, with the log of each step. */
  function Loop(step: StepFunction, start: Carry, n: nat): Result<(Carry, seq<StepLog>)>
    decreases n
  {
    if n <= FirstStep then Ok((start, []))
    else
      var before :- Loop(step, start, n - 1);
      var next :- step(before.0, n - 1);
      Ok((next.0, before.1 + [next.1]))
  }

  /** The backtest's step at `t`, on the features and the projection at `t`; the loop never calls it past the series. */
  function StepAt(priceReturns: seq<real>, coherenceAt: nat -> real, scoreAt: nat -> real,
                  cfg: BacktestConfig, std: seq<real> -> real): StepFunction
  {
    (c: Carry, t: nat) =>
      if 1 <= t < |priceReturns| then Step(c, t, priceReturns, coherenceAt(t), scoreAt(t), cfg, std)
      else Raise(ValueError)
  }

  /** The backtest's loop after the steps `FirstStep .. n-1`. */
  function RunUpTo(priceReturns: seq<real>, coherenceAt: nat -> real, scoreAt: nat -> real,
                   cfg: BacktestConfig, std: seq<real> -> real, n: nat): Result<(Carry, seq<StepLog>)>
  {
    Loop(StepAt(priceReturns, coherenceAt, scoreAt, cfg, std), StartCarry(cfg), n)
  }

  /** An exception ends the loop: once a prefix has raised, every longer run raises the same. */
  lemma {:induction false} RaisePersists(step: StepFunction, start: Carry, n: nat, m: nat)
    requires n <= m
    requires Loop(step, start, n).Raise?
    ensures Loop(step, start, m) == Loop(step, start, n)
    decreases m - n
  {
    if n < m {
      RaisePersists(step, start, n, m - 1);
    }
  }

  /** A run that does not raise extends a shorter run that does not raise, by one log entry. */
  lemma OkPrefix(step: StepFunction, start: Carry, m: nat)
    requires FirstStep < m
    requires Loop(step, start, m).Ok?
    ensures Loop(step, start, m - 1).Ok?
    ensures Loop(step, start, m).value.1 == Loop(step, start, m - 1).value.1 + [step(Loop(step, start, m - 1).value.0, m - 1).value.1]
  {
  }

  /** Every step the loop has been through has exactly one entry in the log, in step order. */
  lemma {:induction false} OneLogPerStep(step: StepFunction, start: Carry, n: nat)
    requires Loop(step, start, n).Ok?
    ensures |Loop(step, start, n).value.1| == if n <= FirstStep then 0 else n - FirstStep
    decreases n
  {
    if n > FirstStep {
      OkPrefix(step, start, n);
      OneLogPerStep(step, start, n - 1);
    }
  }

  /** A property of the carry that every step keeps holds after the whole loop. */
  lemma {:induction false} LoopPreserves(step: StepFunction, start: Carry, n: nat, inv: Carry -> bool)
    requires inv(start)
    requires forall c: Carry, t: nat :: inv(c) && step(c, t).Ok? ==> inv(step(c, t).value.0)
    ensures Loop(step, start, n).Ok? ==> inv(Loop(step, start, n).value.0)
    decreases n
  {
    if n > FirstStep && Loop(step, start, n).Ok? {
      OkPrefix(step, start, n);
      LoopPreserves(step, start, n - 1, inv);
    }
  }

  /**
   * A property of the carry that every step keeps, and under which every
   * log entry has property `out`, holds from the first run that has it on,
   * and every later entry has `out`.
   */
  lemma {:induction false} LoopAbsorbs(step: StepFunction, start: Carry, inv: Carry -> bool, out: StepLog -> bool, n: nat, m: nat)
    requires FirstStep <= n <= m
    requires Loop(step, start, n).Ok? && inv(Loop(step, start, n).value.0)
    requires forall c: Carry, t: nat :: inv(c) && step(c, t).Ok? ==> inv(step(c, t).value.0) && out(step(c, t).value.1)
    requires Loop(step, start, m).Ok?
    ensures inv(Loop(step, start, m).value.0)
    ensures forall i :: n - FirstStep <= i < |Loop(step, start, m).value.1| ==> out(Loop(step, start, m).value.1[i])
    decreases m - n
  {
    OneLogPerStep(step, start, m);
    if n < m {
      OkPrefix(step, start, m);
      LoopAbsorbs(step, start, inv, out, n, m - 1);
      OneLogPerStep(step, start, m - 1);
      var earlier := Loop(step, start, m - 1).value.1;
      var logs := Loop(step, start, m).value.1;
      forall i | n - FirstStep <= i < |logs|
        ensures out(logs[i])
      {
        if i < |earlier| {
          assert logs[i] == earlier[i];
        }
      }
    }
  }

  /** The records the loop keeps are whole: every key present, the cooldown never negative, the curve ending at the equity. */
  predicate Healthy(c: Carry) {
    && c.run.lastInvestTs.Some? && c.run.equityCurve.Some? && c.run.consecutiveLosses.Some?
    && c.run.cooldownRemaining.Some? && c.run.cooldownRemaining.value >= 0
    && |c.run.equityCurve.value| > 0 && c.run.equityCurve.value[|c.run.equityCurve.value| - 1] == c.equity
    && |c.scores| <= ScoreWindow
  }

  /** The ticked cooldown never goes below zero and drops by exactly one while positive. */
  lemma TickKeepsCooldown(run: RunSnapshot)
    requires run.cooldownRemaining.Some? && run.cooldownRemaining.value >= 0
    ensures Tick(run).Ok? && Tick(run).value.cooldownRemaining.value >= 0
    ensures run.cooldownRemaining.value > 0 ==> Tick(run).value.cooldownRemaining.value == run.cooldownRemaining.value - 1
    ensures run.cooldownRemaining.value == 0 ==> Tick(run).value == run
  {
  }

  lemma ProceedKeepsHealthy(c: Carry, t: nat, priceReturns: seq<real>, buy: bool, amount: real, cfg: BacktestConfig)
    requires 1 <= t < |priceReturns| && Healthy(c)
    ensures Proceed(c, t, priceReturns, buy, amount, cfg).Ok? ==> Healthy(Proceed(c, t, priceReturns, buy, amount, cfg).value.0)
  {
  }

  lemma GuardKeepsHealthy(c: Carry, t: nat, priceReturns: seq<real>, buy: bool, amount: real,
                          cfg: BacktestConfig, std: seq<real> -> real)
    requires 1 <= t < |priceReturns| && Healthy(c) && cfg.gate3.cooldownSteps >= 0
    ensures Guard(c, t, priceReturns, buy, amount, cfg, std).Ok? ==> Healthy(Guard(c, t, priceReturns, buy, amount, cfg, std).value.0)
  {
    var k := Gate3RiskKill.RiskKill(c.run, priceReturns[..t], cfg.gate3, std);
    if k.Ok? {
      Gate3RiskKill.WritesOnlyCooldown(c.run, priceReturns[..t], cfg.gate3, std);
      var c1 := c.(run := k.value.1);
      assert Healthy(c1);
      if !k.value.0.ok {
        var d := RoiDecide(c.roi, t, Mean(c.scores), cfg.roi, Some(k.value.0.reason));
        if d.Ok? {
          assert Guard(c, t, priceReturns, buy, amount, cfg, std).value.0 == c1.(roi := d.value.1);
        }
      } else {
        assert Guard(c, t, priceReturns, buy, amount, cfg, std) == Proceed(c1, t, priceReturns, buy, amount, cfg);
        ProceedKeepsHealthy(c1, t, priceReturns, buy, amount, cfg);
      }
    }
  }

  /** A step that does not raise keeps the records whole, as long as a kill arms a non-negative cooldown. */
  lemma StepKeepsHealthy(c: Carry, t: nat, priceReturns: seq<real>, coherence: real, score: real,
                         cfg: BacktestConfig, std: seq<real> -> real)
    requires 1 <= t < |priceReturns|
    requires Healthy(c) && cfg.gate3.cooldownSteps >= 0
    ensures Step(c, t, priceReturns, coherence, score, cfg, std).Ok? ==> Healthy(Step(c, t, priceReturns, coherence, score, cfg, std).value.0)
  {
    var c1 := c.(run := Tick(c.run).value);
    var scores := Gate3RiskKill.LastN(c1.scores + [score], ScoreWindow);
    GuardKeepsHealthy(c1.(scores := scores), t, priceReturns, coherence >= cfg.coherenceThreshold,
                      NonNegativePart(c1.roi.riskLevel), cfg, std);
  }

  /** Over the whole loop the records stay whole. */
  lemma RunIsHealthy(priceReturns: seq<real>, coherenceAt: nat -> real, scoreAt: nat -> real,
                     cfg: BacktestConfig, std: seq<real> -> real, n: nat)
    requires cfg.gate3.cooldownSteps >= 0
    requires RunUpTo(priceReturns, coherenceAt, scoreAt, cfg, std, n).Ok?
    ensures Healthy(RunUpTo(priceReturns, coherenceAt, scoreAt, cfg, std, n).value.0)
  {
    var step := StepAt(priceReturns, coherenceAt, scoreAt, cfg, std);
    forall c: Carry, t: nat | Healthy(c) && step(c, t).Ok?
      ensures Healthy(step(c, t).value.0)
    {
      if 1 <= t < |priceReturns| {
        StepKeepsHealthy(c, t, priceReturns, coherenceAt(t), scoreAt(t), cfg, std);
      }
    }
    assert Healthy(StartCarry(cfg));
    LoopPreserves(step, StartCarry(cfg), n, Healthy);
  }

  /**
   * Gate 1 runs first: a candidate it refuses (a non-positive amount or a
   * coherence outside [0, 1]) ends the step with only the cooldown ticked.
   */
  lemma GateOneFirst(c: Carry, t: nat, priceReturns: seq<real>, coherence: real, score: real,
                     cfg: BacktestConfig, std: seq<real> -> real)
    requires 1 <= t < |priceReturns| && c.run.cooldownRemaining.Some?
    ensures var amount := NonNegativePart(c.roi.riskLevel);
            var r := Step(c, t, priceReturns, coherence, score, cfg, std);
            !CandidateCheck(amount, coherence).ok ==>
              r == Ok((c.(run := Tick(c.run).value), Gate1Refused(CandidateCheck(amount, coherence).reason)))
  {
  }

  /**
   * An executed step passed every gate in order, has the source's side (BUY
   * iff the coherence reaches the threshold) and the amount `max(0, risk)`,
   * is the execution of `Proceed` on the screened carry (whose pnl and equity
   * `ProceedExecuted` states), and did the bookkeeping: investment time `t`,
   * the new equity appended to the curve, and the loss streak grown on a
   * loss and reset otherwise.
   */
  lemma ExecutedBookkeeping(c: Carry, t: nat, priceReturns: seq<real>, coherence: real, score: real,
                            cfg: BacktestConfig, std: seq<real> -> real, after: Carry, log: StepLog)
    requires 1 <= t < |priceReturns|
    requires Step(c, t, priceReturns, coherence, score, cfg, std) == Ok((after, log)) && log.Executed?
    ensures Tick(c.run).Ok?
    ensures log.buy == (coherence >= cfg.coherenceThreshold)
    ensures log.amount == NonNegativePart(c.roi.riskLevel)
    ensures CandidateCheck(log.amount, coherence).ok
    ensures Gate2Temporal.Check(Tick(c.run).value, t as real, cfg.holdSeconds, coherence, cfg.coherenceThreshold).ok
    ensures Gate3RiskKill.RiskKill(Tick(c.run).value, priceReturns[..t], cfg.gate3, std) == Ok((Pass, Tick(c.run).value))
    ensures !after.roi.safeMode
    ensures Proceed(c.(run := Tick(c.run).value, scores := Gate3RiskKill.LastN(c.scores + [score], ScoreWindow)),
                    t, priceReturns, log.buy, log.amount, cfg) == Ok((after, log))
    ensures after.run == Tick(c.run).value.(lastInvestTs := Some(t as real),
                                            equityCurve := Some(Tick(c.run).value.equityCurve.value + [after.equity]),
                                            consecutiveLosses := Some(if log.pnl < 0.0 then Tick(c.run).value.consecutiveLosses.value + 1 else 0))
  {
    StepIsScreen(c, t, priceReturns, coherence, score, cfg, std);
    var c1 := c.(run := Tick(c.run).value);
    var buy := coherence >= cfg.coherenceThreshold;
    var amount := NonNegativePart(c.roi.riskLevel);
    var c2 := c1.(scores := Gate3RiskKill.LastN(c1.scores + [score], ScoreWindow));
    ScreenExecuted(c1, t, priceReturns, coherence, score, cfg, std);
    GuardExecuted(c2, t, priceReturns, buy, amount, cfg, std);
    ProceedExecuted(c2, t, priceReturns, buy, amount, cfg);
  }

  /** A step that does not raise ticked the cooldown and screened the candidate. */
  lemma StepIsScreen(c: Carry, t: nat, priceReturns: seq<real>, coherence: real, score: real,
                     cfg: BacktestConfig, std: seq<real> -> real)
    requires 1 <= t < |priceReturns|
    requires Step(c, t, priceReturns, coherence, score, cfg, std).Ok?
    ensures Tick(c.run).Ok?
    ensures Step(c, t, priceReturns, coherence, score, cfg, std) == Screen(c.(run := Tick(c.run).value), t, priceReturns, coherence, score, cfg, std)
  {
  }

  /** An executed `Screen` passed gates 1 and 2 and went on to `Guard` with the score window updated. */
  lemma ScreenExecuted(c: Carry, t: nat, priceReturns: seq<real>, coherence: real, score: real,
                       cfg: BacktestConfig, std: seq<real> -> real)
    requires 1 <= t < |priceReturns|
    requires Screen(c, t, priceReturns, coherence, score, cfg, std).Ok?
    requires Screen(c, t, priceReturns, coherence, score, cfg, std).value.1.Executed?
    ensures CandidateCheck(NonNegativePart(c.roi.riskLevel), coherence).ok
    ensures Gate2Temporal.Check(c.run, t as real, cfg.holdSeconds, coherence, cfg.coherenceThreshold).ok
    ensures Screen(c, t, priceReturns, coherence, score, cfg, std)
         == Guard(c.(scores := Gate3RiskKill.LastN(c.scores + [score], ScoreWindow)), t, priceReturns,
                  coherence >= cfg.coherenceThreshold, NonNegativePart(c.roi.riskLevel), cfg, std)
  {
  }

  /** What an executed `Proceed` booked. */
  lemma ProceedExecuted(c: Carry, t: nat, priceReturns: seq<real>, buy: bool, amount: real, cfg: BacktestConfig)
    requires 1 <= t < |priceReturns|
    requires Proceed(c, t, priceReturns, buy, amount, cfg).Ok?
    requires Proceed(c, t, priceReturns, buy, amount, cfg).value.1.Executed?
    ensures var (c', log) := Proceed(c, t, priceReturns, buy, amount, cfg).value;
            && log.buy == buy && log.amount == amount
            && !c'.roi.safeMode
            && log.pnl == (if buy then 1.0 else -1.0) * amount * priceReturns[t - 1]
            && c'.equity == c.equity * (1.0 + log.pnl)
            && c'.run == c.run.(lastInvestTs := Some(t as real),
                                equityCurve := Some(c.run.equityCurve.value + [c'.equity]),
                                consecutiveLosses := Some(if log.pnl < 0.0 then c.run.consecutiveLosses.value + 1 else 0))
  {
  }

  /** An executed `Guard` passed gate 3, which then left the record alone, and went on to `Proceed`. */
  lemma GuardExecuted(c: Carry, t: nat, priceReturns: seq<real>, buy: bool, amount: real,
                      cfg: BacktestConfig, std: seq<real> -> real)
    requires 1 <= t < |priceReturns|
    requires Guard(c, t, priceReturns, buy, amount, cfg, std).Ok?
    requires Guard(c, t, priceReturns, buy, amount, cfg, std).value.1.Executed?
    ensures Gate3RiskKill.RiskKill(c.run, priceReturns[..t], cfg.gate3, std) == Ok((Pass, c.run))
    ensures Guard(c, t, priceReturns, buy, amount, cfg, std) == Proceed(c, t, priceReturns, buy, amount, cfg)
  {
    var k := Gate3RiskKill.RiskKill(c.run, priceReturns[..t], cfg.gate3, std);
    Gate3RiskKill.WritesOnlyCooldown(c.run, priceReturns[..t], cfg.gate3, std);
  }

  lemma ProceedOnlyExecutedBooks(c: Carry, t: nat, priceReturns: seq<real>, buy: bool, amount: real, cfg: BacktestConfig)
    requires 1 <= t < |priceReturns|
    ensures var r := Proceed(c, t, priceReturns, buy, amount, cfg);
            r.Ok? && !r.value.1.Executed? ==> r.value.0.run == c.run && r.value.0.equity == c.equity
  {
  }

  lemma GuardOnlyExecutedBooks(c: Carry, t: nat, priceReturns: seq<real>, buy: bool, amount: real,
                               cfg: BacktestConfig, std: seq<real> -> real)
    requires 1 <= t < |priceReturns|
    ensures var r := Guard(c, t, priceReturns, buy, amount, cfg, std);
            r.Ok? && !r.value.1.Executed? ==>
              && r.value.0.run == c.run.(cooldownRemaining := r.value.0.run.cooldownRemaining)
              && r.value.0.equity == c.equity
  {
    var k := Gate3RiskKill.RiskKill(c.run, priceReturns[..t], cfg.gate3, std);
    if k.Ok? {
      Gate3RiskKill.WritesOnlyCooldown(c.run, priceReturns[..t], cfg.gate3, std);
      ProceedOnlyExecutedBooks(c.(run := k.value.1), t, priceReturns, buy, amount, cfg);
    }
  }

  /**
   * A refused step leaves the investment time, the equity curve, the loss
   * streak and the equity as they were; only the cooldown may have moved.
   */
  lemma OnlyExecutedBooks(c: Carry, t: nat, priceReturns: seq<real>, coherence: real, score: real,
                          cfg: BacktestConfig, std: seq<real> -> real)
    requires 1 <= t < |priceReturns|
    requires Step(c, t, priceReturns, coherence, score, cfg, std).Ok?
    requires !Step(c, t, priceReturns, coherence, score, cfg, std).value.1.Executed?
    ensures var c' := Step(c, t, priceReturns, coherence, score, cfg, std).value.0;
            && c'.run == c.run.(cooldownRemaining := c'.run.cooldownRemaining)
            && c'.equity == c.equity
  {
    var c1 := c.(run := Tick(c.run).value);
    var scores := Gate3RiskKill.LastN(c1.scores + [score], ScoreWindow);
    GuardOnlyExecutedBooks(c1.(scores := scores), t, priceReturns, coherence >= cfg.coherenceThreshold,
                           NonNegativePart(c1.roi.riskLevel), cfg, std);
  }

  lemma GuardKillEntersSafeMode(c: Carry, t: nat, priceReturns: seq<real>, buy: bool, amount: real,
                                cfg: BacktestConfig, std: seq<real> -> real)
    requires 1 <= t < |priceReturns|
    ensures var r := Guard(c, t, priceReturns, buy, amount, cfg, std);
            r.Ok? && r.value.1.Gate3Refused? && Gate3RiskKill.IsKill(r.value.1.reason) ==>
              r.value.1.action == EXIT_MARKET_SAFE && r.value.0.roi.safeMode
  {
    var k := Gate3RiskKill.RiskKill(c.run, priceReturns[..t], cfg.gate3, std);
    if k.Ok? && !k.value.0.ok && Gate3RiskKill.IsKill(k.value.0.reason) {
      KillExitsToSafeMode(c.roi, t, Mean(c.scores), cfg.roi, Some(k.value.0.reason));
    }
  }

  /** A kill at gate 3 sends the ROI policy to safe mode with `EXIT_MARKET_SAFE`. */
  lemma KillEntersSafeMode(c: Carry, t: nat, priceReturns: seq<real>, coherence: real, score: real,
                           cfg: BacktestConfig, std: seq<real> -> real)
    requires 1 <= t < |priceReturns|
    requires Step(c, t, priceReturns, coherence, score, cfg, std).Ok?
    requires Step(c, t, priceReturns, coherence, score, cfg, std).value.1.Gate3Refused?
    requires Gate3RiskKill.IsKill(Step(c, t, priceReturns, coherence, score, cfg, std).value.1.reason)
    ensures var (c', log) := Step(c, t, priceReturns, coherence, score, cfg, std).value;
            log.action == EXIT_MARKET_SAFE && c'.roi.safeMode
  {
    var c1 := c.(run := Tick(c.run).value);
    var scores := Gate3RiskKill.LastN(c1.scores + [score], ScoreWindow);
    GuardKillEntersSafeMode(c1.(scores := scores), t, priceReturns, coherence >= cfg.coherenceThreshold,
                            NonNegativePart(c1.roi.riskLevel), cfg, std);
  }

  lemma GuardSafeModeNeverExecutes(c: Carry, t: nat, priceReturns: seq<real>, buy: bool, amount: real,
                                   cfg: BacktestConfig, std: seq<real> -> real)
    requires 1 <= t < |priceReturns| && c.roi.safeMode
    ensures var r := Guard(c, t, priceReturns, buy, amount, cfg, std);
            r.Ok? ==> !r.value.1.Executed? && r.value.0.roi.safeMode
  {
    var k := Gate3RiskKill.RiskKill(c.run, priceReturns[..t], cfg.gate3, std);
    if k.Ok? {
      SafeModeIsAbsorbing(c.roi, t, Mean(c.scores), cfg.roi, Some(k.value.0.reason));
      SafeModeIsAbsorbing(c.roi, t, Mean(c.scores), cfg.roi, None);
    }
  }

  /** In safe mode a step never executes, and safe mode stays on. */
  lemma SafeModeNeverExecutes(c: Carry, t: nat, priceReturns: seq<real>, coherence: real, score: real,
                              cfg: BacktestConfig, std: seq<real> -> real)
    requires 1 <= t < |priceReturns| && c.roi.safeMode
    ensures var r := Step(c, t, priceReturns, coherence, score, cfg, std);
            r.Ok? ==> !r.value.1.Executed? && r.value.0.roi.safeMode
  {
    if c.run.cooldownRemaining.Some? {
      var c1 := c.(run := Tick(c.run).value);
      var scores := Gate3RiskKill.LastN(c1.scores + [score], ScoreWindow);
      GuardSafeModeNeverExecutes(c1.(scores := scores), t, priceReturns, coherence >= cfg.coherenceThreshold,
                                 NonNegativePart(c1.roi.riskLevel), cfg, std);
    }
  }

  /** The carry is in safe mode. */
  predicate InSafeMode(c: Carry) {
    c.roi.safeMode
  }

  /** The step did not execute. */
  predicate NotExecuted(log: StepLog) {
    !log.Executed?
  }

  /**
   * Once the loop is in safe mode it stays there: every later run that does
   * not raise is still in safe mode and has executed none of the later steps.
   */
  lemma SafeModeIsFinal(priceReturns: seq<real>, coherenceAt: nat -> real, scoreAt: nat -> real,
                        cfg: BacktestConfig, std: seq<real> -> real, n: nat, m: nat)
    requires FirstStep <= n <= m
    requires RunUpTo(priceReturns, coherenceAt, scoreAt, cfg, std, n).Ok?
    requires RunUpTo(priceReturns, coherenceAt, scoreAt, cfg, std, n).value.0.roi.safeMode
    requires RunUpTo(priceReturns, coherenceAt, scoreAt, cfg, std, m).Ok?
    ensures var (c, logs) := RunUpTo(priceReturns, coherenceAt, scoreAt, cfg, std, m).value;
            && c.roi.safeMode
            && |logs| == m - FirstStep
            && forall i :: n - FirstStep <= i < |logs| ==> !logs[i].Executed?
  {
    var step := StepAt(priceReturns, coherenceAt, scoreAt, cfg, std);
    forall c: Carry, t: nat | InSafeMode(c) && step(c, t).Ok?
      ensures InSafeMode(step(c, t).value.0) && NotExecuted(step(c, t).value.1)
    {
      if 1 <= t < |priceReturns| {
        SafeModeNeverExecutes(c, t, priceReturns, coherenceAt(t), scoreAt(t), cfg, std);
      }
    }
    LoopAbsorbs(step, StartCarry(cfg), InSafeMode, NotExecuted, n, m);
    OneLogPerStep(step, StartCarry(cfg), m);
  }

  /** The carry a step works on, read off the two records and the loop variables. */
  function CarryOf(state: RunState, roi: RoiState, scores: seq<real>, equity: real): Carry
    reads state, roi
  {
    Carry(state.Snapshot(), roi.Snapshot(), scores, equity)
  }

  /** A step's outcome as the in-place methods see it, against its specification `spec`. */
  ghost predicate Agrees(spec: Result<(Carry, StepLog)>, r: Result<(seq<real>, real, StepLog)>, after: Carry) {
    if spec.Raise? then r == Raise(spec.error)
    else r.Ok? && spec.value.0 == after && r.value.2 == spec.value.1
  }

  /**
   * One step in place: `state` and `roi` are updated as the source updates
   * them; the scores window and the equity are returned.
   */
  method StepInPlace(state: RunState, roi: RoiState, scores: seq<real>, equity: real, t: nat, priceReturns: seq<real>,
                     coherence: real, score: real, cfg: BacktestConfig, std: seq<real> -> real)
    returns (r: Result<(seq<real>, real, StepLog)>)
    requires 1 <= t < |priceReturns|
    modifies state, roi
    ensures Agrees(Step(old(CarryOf(state, roi, scores, equity)), t, priceReturns, coherence, score, cfg, std), r,
                   if r.Ok? then CarryOf(state, roi, r.value.0, r.value.1) else CarryOf(state, roi, scores, equity))
  {
    if state.cooldownRemaining.None? {
      return Raise(KeyError("cooldown_remaining"));
    }
    if state.cooldownRemaining.value > 0 {
      state.cooldownRemaining := Some(state.cooldownRemaining.value - 1);
    }
    r := ScreenInPlace(state, roi, scores, equity, t, priceReturns, coherence, score, cfg, std);
  }

  method ScreenInPlace(state: RunState, roi: RoiState, scores: seq<real>, equity: real, t: nat, priceReturns: seq<real>,
                       coherence: real, score: real, cfg: BacktestConfig, std: seq<real> -> real)
    returns (r: Result<(seq<real>, real, StepLog)>)
    requires 1 <= t < |priceReturns|
    modifies state, roi
    ensures Agrees(Screen(old(CarryOf(state, roi, scores, equity)), t, priceReturns, coherence, score, cfg, std), r,
                   if r.Ok? then CarryOf(state, roi, r.value.0, r.value.1) else CarryOf(state, roi, scores, equity))
  {
    var buy := coherence >= cfg.coherenceThreshold;
    var amount := NonNegativePart(roi.riskLevel);
    var g1 := Gate1Integrity.Validate(Candidate(cfg.asset, buy, amount, t, coherence));
    CandidateValidation(cfg.asset, buy, amount, t, coherence);
    if !g1.value.ok {
      return Ok((scores, equity, Gate1Refused(g1.value.reason)));
    }
    var window := Gate3RiskKill.LastN(scores + [score], ScoreWindow);
    var g2 := Gate2Temporal.Check(state.Snapshot(), t as real, cfg.holdSeconds, coherence, cfg.coherenceThreshold);
    if !g2.ok {
      return Ok((window, equity, Gate2Refused(g2.reason)));
    }
    r := GuardInPlace(state, roi, window, equity, t, priceReturns, buy, amount, cfg, std);
  }

  method GuardInPlace(state: RunState, roi: RoiState, scores: seq<real>, equity: real, t: nat, priceReturns: seq<real>,
                      buy: bool, amount: real, cfg: BacktestConfig, std: seq<real> -> real)
    returns (r: Result<(seq<real>, real, StepLog)>)
    requires 1 <= t < |priceReturns|
    modifies state, roi
    ensures Agrees(Guard(old(CarryOf(state, roi, scores, equity)), t, priceReturns, buy, amount, cfg, std), r,
                   if r.Ok? then CarryOf(state, roi, r.value.0, r.value.1) else CarryOf(state, roi, scores, equity))
  {
    var g3 := Gate3RiskKill.Check(state, priceReturns[..t], cfg.gate3, std);
    if g3.Raise? {
      return Raise(g3.error);
    }
    if !g3.value.ok {
      var action := roi.Decide(t, Mean(scores), cfg.roi, Some(g3.value.reason));
      if action.Raise? {
        return Raise(action.error);
      }
      return Ok((scores, equity, Gate3Refused(g3.value.reason, action.value)));
    }
    r := ProceedInPlace(state, roi, scores, equity, t, priceReturns, buy, amount, cfg);
  }

  method ProceedInPlace(state: RunState, roi: RoiState, scores: seq<real>, equity: real, t: nat, priceReturns: seq<real>,
                        buy: bool, amount: real, cfg: BacktestConfig)
    returns (r: Result<(seq<real>, real, StepLog)>)
    requires 1 <= t < |priceReturns|
    modifies state, roi
    ensures Agrees(Proceed(old(CarryOf(state, roi, scores, equity)), t, priceReturns, buy, amount, cfg), r,
                   if r.Ok? then CarryOf(state, roi, r.value.0, r.value.1) else CarryOf(state, roi, scores, equity))
  {
    ghost var run := state.Snapshot();
    var action := roi.Decide(t, Mean(scores), cfg.roi, None);
    if action.Raise? {
      return Raise(action.error);
    }
    if roi.safeMode {
      return Ok((scores, equity, SafeModeRefused(action.value)));
    }
    var pnl := (if buy then 1.0 else -1.0) * amount * priceReturns[t - 1];
    var newEquity := equity * (1.0 + pnl);
    if state.equityCurve.None? {
      return Raise(KeyError("equity_curve"));
    }
    if state.consecutiveLosses.None? {
      return Raise(KeyError("consecutive_losses"));
    }
    state.lastInvestTs := Some(t as real);
    state.equityCurve := Some(state.equityCurve.value + [newEquity]);
    state.consecutiveLosses := Some(if pnl < 0.0 then state.consecutiveLosses.value + 1 else 0);
    assert Book(run, t, pnl, newEquity) == Ok(state.Snapshot());
    ghost var spec := Proceed(Carry(run, old(roi.Snapshot()), scores, equity), t, priceReturns, buy, amount, cfg);
    assert spec.value.1.pnl == pnl && spec.value.0.equity == newEquity;
    return Ok((scores, newEquity, Executed(buy, amount, pnl, action.value)));
  }

  /**
   * One iteration of the loop of `RunBacktest`: from the records after the
   * steps before `t`, the step at `t` in place, and the loop after it.
   */
  method Advance(state: RunState, roi: RoiState, scores: seq<real>, equity: real, logs: seq<StepLog>, t: nat,
                 priceReturns: seq<real>, coherenceAt: nat -> real, scoreAt: nat -> real,
                 cfg: BacktestConfig, std: seq<real> -> real)
    returns (r: Result<(seq<real>, real, seq<StepLog>)>)
    requires FirstStep <= t < |priceReturns|
    requires RunUpTo(priceReturns, coherenceAt, scoreAt, cfg, std, t) == Ok((CarryOf(state, roi, scores, equity), logs))
    modifies state, roi
    ensures RunUpTo(priceReturns, coherenceAt, scoreAt, cfg, std, t + 1)
            == if r.Raise? then Raise(r.error) else Ok((CarryOf(state, roi, r.value.0, r.value.1), r.value.2))
  {
    ghost var spec := Step(CarryOf(state, roi, scores, equity), t, priceReturns, coherenceAt(t), scoreAt(t), cfg, std);
    assert RunUpTo(priceReturns, coherenceAt, scoreAt, cfg, std, t + 1)
           == if spec.Raise? then Raise(spec.error) else Ok((spec.value.0, logs + [spec.value.1]));
    var step := StepInPlace(state, roi, scores, equity, t, priceReturns, coherenceAt(t), scoreAt(t), cfg, std);
    if step.Raise? {
      return Raise(step.error);
    }
    return Ok((step.value.0, step.value.1, logs + [step.value.2]));
  }

  /**
   * `main` of the backtest over the whole return series: the state and the
   * ROI record are created fresh and updated in place, step by step.
   */
  method RunBacktest(priceReturns: seq<real>, coherenceAt: nat -> real, scoreAt: nat -> real,
                     cfg: BacktestConfig, std: seq<real> -> real)
    returns (r: Result<(Carry, seq<StepLog>)>)
    ensures r == RunUpTo(priceReturns, coherenceAt, scoreAt, cfg, std, |priceReturns|)
  {
    var state := new RunState.Backtest();
    var roi := new RoiState.Init(cfg.roi);
    var scores: seq<real> := [];
    var equity := 1.0;
    var logs: seq<StepLog> := [];
    if |priceReturns| <= FirstStep {
      return Ok((CarryOf(state, roi, scores, equity), logs));
    }
    var t := FirstStep;
    while t < |priceReturns|
      invariant FirstStep <= t <= |priceReturns|
      invariant RunUpTo(priceReturns, coherenceAt, scoreAt, cfg, std, t) == Ok((CarryOf(state, roi, scores, equity), logs))
      decreases |priceReturns| - t
    {
      var next := Advance(state, roi, scores, equity, logs, t, priceReturns, coherenceAt, scoreAt, cfg, std);
      if next.Raise? {
        assert RunUpTo(priceReturns, coherenceAt, scoreAt, cfg, std, t + 1) == Raise(next.error);
        RaisePersists(StepAt(priceReturns, coherenceAt, scoreAt, cfg, std), StartCarry(cfg), t + 1, |priceReturns|);
        return Raise(next.error);
      }
      scores, equity, logs := next.value.0, next.value.1, next.value.2;
      t := t + 1;
    }
    return Ok((CarryOf(state, roi, scores, equity), logs));
  }
}
