/**
 * The mutable run state that the trading gates read and the backtest loop
 * updates in place. The source keeps it in a dict; each key is a field here,
 * `None` standing for an absent key.
 */
module TradingState {
  import opened Wrappers

  /** The `(ok, reason)` pair every trading gate returns. */
  datatype GateResult = GateResult(ok: bool, reason: string)

  const Pass: GateResult := GateResult(true, "pass")

  /** The contents of the run state at one moment. */
  datatype RunSnapshot = RunSnapshot(
    lastInvestTs: Option<real>,
    equityCurve: Option<seq<real>>,
    consecutiveLosses: Option<int>,
    cooldownRemaining: Option<int>)

  /** The backtest's initial state: last investment at 0, a flat curve, no losses, no cooldown. */
  const BacktestStart: RunSnapshot := RunSnapshot(Some(0.0), Some([1.0]), Some(0), Some(0))

  class RunState {
    var lastInvestTs: Option<real>
    var equityCurve: Option<seq<real>>
    var consecutiveLosses: Option<int>
    var cooldownRemaining: Option<int>

    /** The state the backtest starts from. */
    constructor Backtest()
      ensures Snapshot() == BacktestStart
    {
      lastInvestTs, equityCurve, consecutiveLosses, cooldownRemaining := Some(0.0), Some([1.0]), Some(0), Some(0);
    }

    function Snapshot(): RunSnapshot
      reads this
    {
      RunSnapshot(lastInvestTs, equityCurve, consecutiveLosses, cooldownRemaining)
    }
  }
}
