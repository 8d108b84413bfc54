/**
 * The ERC-8004 trade intent record: a fixed standard and version, the order
 * fields as given, and a copy of the metadata.
 */
module Erc8004 {
  import opened Wrappers
  import opened Values

  const Standard: string := "ERC-8004"
  const Version: string := "0.1"

  /** The `TradeIntentERC8004` dataclass. */
  datatype TradeIntent = TradeIntent(
    standard: string,
    version: string,
    asset: Value,
    side: Value,
    amount: real,
    timestamp: real,
    metadata: Dict)
  {
    /** `asdict(intent)`: one key per field. */
    function AsDict(): (d: Dict)
      ensures d.Keys == {"standard", "version", "asset", "side", "amount", "timestamp", "metadata"}
    {
      map["standard" := VStr(standard), "version" := VStr(version), "asset" := asset, "side" := side,
          "amount" := VFloat(amount), "timestamp" := VFloat(timestamp), "metadata" := VDict(metadata)]
    }
  }

  /**
   * `build_trade_intent(asset, side, amount, timestamp, metadata)`. Amount and
   * timestamp go through `float()`, which may raise; asset and side are
   * stored as given, unvalidated; a `None` metadata becomes an empty dict.
   */
  function BuildTradeIntent(asset: Value, side: Value, amount: Value, timestamp: Value, metadata: Option<Dict>): (r: Result<TradeIntent>)
    ensures r.Ok? <==> ToFloat(amount).Ok? && ToFloat(timestamp).Ok?
    ensures ToFloat(amount).Raise? ==> r == Raise(ToFloat(amount).error)
    ensures r.Ok? ==> r.value.standard == Standard && r.value.version == Version
    ensures r.Ok? ==> r.value.asset == asset && r.value.side == side
    ensures r.Ok? ==> r.value.amount == ToFloat(amount).value && r.value.timestamp == ToFloat(timestamp).value
    ensures r.Ok? ==> r.value.metadata == metadata.GetOr(map[])
  {
    var a :- ToFloat(amount);
    var t :- ToFloat(timestamp);
    Ok(TradeIntent(Standard, Version, asset, side, a, t, metadata.GetOr(map[])))
  }

  /** A float amount and timestamp are copied exactly, and the side is never checked. */
  lemma FloatsCopied(asset: Value, side: Value, amount: real, timestamp: real, metadata: Option<Dict>)
    ensures BuildTradeIntent(asset, side, VFloat(amount), VFloat(timestamp), metadata)
            == Ok(TradeIntent(Standard, Version, asset, side, amount, timestamp, metadata.GetOr(map[])))
  {
  }
}
