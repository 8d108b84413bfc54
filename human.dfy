/**
 * The "human algebra" of the dashboard: a qualitative symbol for a score
 * in [0,1], a one-line summary of the market features and a textual
 * explanation of a gates result.
 */
module Human {
  import opened Wrappers
  import opened Values
  import Text

  /** The five symbols, from the lowest level to the highest. */
  const Symbols: seq<string> := ["\U{2193}\U{2193}", "\U{2193}", "\U{2248}", "\U{2191}", "\U{2191}\U{2191}"]

  /** The inclusive lower bounds of the four upper levels, in increasing order. */
  const Thresholds: seq<real> := [0.25, 0.45, 0.55, 0.75]

  /** How many of the thresholds `v` reaches. */
  function ThresholdsMet(v: real): (n: nat)
    ensures n <= |Thresholds|
    ensures forall k :: 0 <= k < |Thresholds| ==> (Thresholds[k] <= v <==> k < n)
  {
    CountAtMost(Thresholds, v)
  }

  /** The number of elements of `ts` that are at most `v`, for `ts` in increasing order. */
  function CountAtMost(ts: seq<real>, v: real): (n: nat)
    requires forall a, b :: 0 <= a < b < |ts| ==> ts[a] < ts[b]
    ensures n <= |ts|
    ensures forall k :: 0 <= k < |ts| ==> (ts[k] <= v <==> k < n)
  {
    if |ts| == 0 || v < ts[0] then 0 else 1 + CountAtMost(ts[1..], v)
  }

  /**
   * `qualitative_level`: ↑↑ from 0.75, ↑ from 0.55, ≈ from 0.45, ↓ from
   * 0.25 and ↓↓ below; every bound is inclusive.
   */
  function QualitativeLevel(v: real): (r: string)
    ensures r == Symbols[ThresholdsMet(v)]
  {
    var n := ThresholdsMet(v);
    assert Thresholds[0] == 0.25 && Thresholds[1] == 0.45 && Thresholds[2] == 0.55 && Thresholds[3] == 0.75;
    if v >= 0.75 then "\U{2191}\U{2191}"
    else if v >= 0.55 then "\U{2191}"
    else if v >= 0.45 then "\U{2248}"
    else if v >= 0.25 then "\U{2193}"
    else "\U{2193}\U{2193}"
  }

  /** The position of a symbol on the scale (the symbols are distinct). */
  function Rank(symbol: string): (k: nat)
    ensures symbol in Symbols ==> k < |Symbols| && Symbols[k] == symbol
  {
    if symbol == Symbols[0] then 0
    else if symbol == Symbols[1] then 1
    else if symbol == Symbols[2] then 2
    else if symbol == Symbols[3] then 3
    else if symbol == Symbols[4] then 4
    else 5
  }

  /** The mapping is total and monotone: a larger value never gets a lower symbol. */
  lemma QualitativeLevelMonotone(v: real, u: real)
    requires v <= u
    ensures QualitativeLevel(v) in Symbols && QualitativeLevel(u) in Symbols
    ensures Rank(QualitativeLevel(v)) <= Rank(QualitativeLevel(u))
  {
    var n, m := ThresholdsMet(v), ThresholdsMet(u);
    assert Rank(Symbols[n]) == n && Rank(Symbols[m]) == m;
  }

  /** `qualitative_level` applied to a value from a dict: the comparison raises `TypeError` on a non-number. */
  function LevelOf(v: Value): (r: Result<string>)
    ensures r.Ok? <==> Number(v).Ok?
    ensures r.Ok? ==> r.value == QualitativeLevel(Number(v).value)
    ensures r.Raise? ==> r.error == TypeError
  {
    var x :- Number(v);
    Ok(QualitativeLevel(x))
  }

  /** The stability level: stability is `1 - volatility`, volatility defaulting to 0.5. */
  function StabilityLevel(features: Dict): (r: Result<string>)
    ensures r.Ok? <==> Number(Get(features, "volatility", VFloat(0.5))).Ok?
    ensures r.Ok? ==> r.value == QualitativeLevel(1.0 - Number(Get(features, "volatility", VFloat(0.5))).value)
  {
    var vol :- Number(Get(features, "volatility", VFloat(0.5)));
    Ok(QualitativeLevel(1.0 - vol))
  }

  /** A higher volatility never gives a higher stability symbol. */
  lemma StabilityAntitone(f1: Dict, f2: Dict)
    requires StabilityLevel(f1).Ok? && StabilityLevel(f2).Ok?
    requires Number(Get(f1, "volatility", VFloat(0.5))).value <= Number(Get(f2, "volatility", VFloat(0.5))).value
    ensures Rank(StabilityLevel(f2).value) <= Rank(StabilityLevel(f1).value)
  {
    var v1 := Number(Get(f1, "volatility", VFloat(0.5))).value;
    var v2 := Number(Get(f2, "volatility", VFloat(0.5))).value;
    QualitativeLevelMonotone(1.0 - v2, 1.0 - v1);
  }

  /**
   * `features_summary`: the stability, coherence and friction symbols
   * (missing features count as 0.5) and the regime (default "unknown").
   */
  function FeaturesSummary(features: Dict, show: Value -> string): (r: Result<string>)
    ensures r.Ok? <==> StabilityLevel(features).Ok?
                       && Number(Get(features, "coherence", VFloat(0.5))).Ok?
                       && Number(Get(features, "friction", VFloat(0.5))).Ok?
    ensures r.Raise? ==> r.error == TypeError
  {
    var s :- StabilityLevel(features);
    var c :- LevelOf(Get(features, "coherence", VFloat(0.5)));
    var f :- LevelOf(Get(features, "friction", VFloat(0.5)));
    var regime := Get(features, "regime", VStr("unknown"));
    Ok("S" + s + "  C" + c + "  F" + f + "  | r\U{00E9}gime=" + Format(regime, show))
  }

  /** With no features at all every level is the middle one and the regime is "unknown". */
  lemma SummaryOfNoFeatures(show: Value -> string)
    ensures FeaturesSummary(map[], show)
         == Ok("S" + "\U{2248}" + "  C" + "\U{2248}" + "  F" + "\U{2248}" + "  | r\U{00E9}gime=" + "unknown")
  {
    var f: Dict := map[];
    assert Get(f, "volatility", VFloat(0.5)) == VFloat(0.5);
    assert StabilityLevel(f) == Ok("\U{2248}");
    assert LevelOf(VFloat(0.5)) == Ok("\U{2248}");
    assert Get(f, "regime", VStr("unknown")) == VStr("unknown");
  }

  /**
   * The items `for law in laws` visits: the elements of a list, the
   * characters of a string, the keys of a dict (in the order `keys` gives);
   * any other value is not iterable.
   */
  function LawItems(laws: Value, keys: Dict -> seq<string>): (r: Result<seq<Value>>)
    ensures laws.VList? ==> r == Ok(laws.items)
    ensures r.Raise? <==> !(laws.VList? || laws.VStr? || laws.VDict?)
    ensures r.Ok? && laws.VStr? ==> |r.value| == |laws.s|
  {
    match laws
    case VList(items) => Ok(items)
    case VStr(s) => Ok(seq(|s|, i requires 0 <= i < |s| => VStr([s[i]])))
    case VDict(entries) =>
      var ks := keys(entries);
      Ok(seq(|ks|, i requires 0 <= i < |ks| => VStr(ks[i])))
    case _ => Raise(TypeError)
  }

  /** One `"- law"` line per item. */
  function LawLines(items: seq<Value>, show: Value -> string): (lines: seq<string>)
    ensures |lines| == |items|
    ensures forall k :: 0 <= k < |items| ==> lines[k] == "- " + Format(items[k], show)
  {
    seq(|items|, k requires 0 <= k < |items| => "- " + Format(items[k], show))
  }

  /** The laws section: the lines joined by newlines, or "—" when there are no laws. */
  function LawsText(laws: Value, show: Value -> string, keys: Dict -> seq<string>): (r: Result<string>)
    ensures !Truthy(laws) ==> r == Ok("\U{2014}")
    ensures Truthy(laws) ==> (r.Ok? <==> LawItems(laws, keys).Ok?)
  {
    if !Truthy(laws) then Ok("\U{2014}")
    else
      var items :- LawItems(laws, keys);
      Ok(Text.Join(LawLines(items, show), "\n"))
  }

  /** The header of the explanation, before the laws section. */
  function Header(decision: Value, reason: Value, show: Value -> string): string {
    "D\U{00E9}cision: " + Format(decision, show) + "\nRaison: " + Format(reason, show) + "\nLois activ\U{00E9}es:\n"
  }

  /**
   * `gates_explainer`: the decision (default "UNKNOWN"), the reason
   * (default ""), then the activated laws (default none), one per line.
   */
  function GatesExplainer(gates: Dict, show: Value -> string, keys: Dict -> seq<string>): (r: Result<string>)
    ensures r.Ok? <==> LawsText(Get(gates, "laws", VList([])), show, keys).Ok?
    ensures r.Ok? ==> exists text :: r.value == Header(Get(gates, "decision", VStr("UNKNOWN")), Get(gates, "reason", VStr("")), show) + text + "\n"
  {
    var decision := Get(gates, "decision", VStr("UNKNOWN"));
    var reason := Get(gates, "reason", VStr(""));
    var text :- LawsText(Get(gates, "laws", VList([])), show, keys);
    Ok(Header(decision, reason, show) + text + "\n")
  }

  /** Without laws the section reads "—". */
  lemma NoLawsReadsDash(gates: Dict, show: Value -> string, keys: Dict -> seq<string>)
    requires !Truthy(Get(gates, "laws", VList([])))
    ensures GatesExplainer(gates, show, keys)
         == Ok(Header(Get(gates, "decision", VStr("UNKNOWN")), Get(gates, "reason", VStr("")), show) + "\U{2014}" + "\n")
  {
    assert LawsText(Get(gates, "laws", VList([])), show, keys) == Ok("\U{2014}");
  }

  /**
   * With a non-empty list of laws, none of whose texts spans lines, the
   * laws section splits back into exactly one `"- law"` line per law, in
   * order.
   */
  lemma OneLinePerLaw(gates: Dict, show: Value -> string, keys: Dict -> seq<string>)
    requires "laws" in gates && gates["laws"].VList? && |gates["laws"].items| > 0
    requires forall k :: 0 <= k < |gates["laws"].items| ==> '\n' !in Format(gates["laws"].items[k], show)
    ensures LawsText(gates["laws"], show, keys).Ok?
    ensures var lines := Text.Split(LawsText(gates["laws"], show, keys).value, '\n');
            |lines| == |gates["laws"].items|
            && forall k :: 0 <= k < |lines| ==> lines[k] == "- " + Format(gates["laws"].items[k], show)
  {
    var items := gates["laws"].items;
    var lines := LawLines(items, show);
    forall k | 0 <= k < |lines|
      ensures '\n' !in lines[k]
    {
      assert lines[k] == "- " + Format(items[k], show);
    }
    Text.SplitJoin(lines, '\n');
  }
}
