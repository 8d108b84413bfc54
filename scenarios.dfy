/** Deterministic scenarios of the proof mode: looking one up by id and turning it into run parameters. */
module Scenarios {
  import opened Wrappers
  import opened Values

  /** `s.get("id") == scenario_id`: only a string id can equal the requested one. */
  predicate HasId(s: Dict, id: string) {
    Get(s, "id", VNone) == VStr(id)
  }

  /** `get_scenario_by_id`: the first scenario with the id, or None when there is none. */
  function GetScenarioById(scenarios: seq<Dict>, id: string): (r: Option<Dict>)
    ensures r.None? <==> forall k :: 0 <= k < |scenarios| ==> !HasId(scenarios[k], id)
    ensures r.Some? ==> exists k :: 0 <= k < |scenarios| && IsFirstMatch(scenarios, id, k) && r.value == scenarios[k]
  {
    if |scenarios| == 0 then None
    else if HasId(scenarios[0], id) then
      assert IsFirstMatch(scenarios, id, 0);
      Some(scenarios[0])
    else
      var r := GetScenarioById(scenarios[1..], id);
      assert r.Some? ==> exists k :: 0 <= k < |scenarios| && IsFirstMatch(scenarios, id, k) && r.value == scenarios[k] by {
        if r.Some? {
          var k :| 0 <= k < |scenarios| - 1 && IsFirstMatch(scenarios[1..], id, k) && r.value == scenarios[1..][k];
          assert IsFirstMatch(scenarios, id, k + 1);
        }
      }
      r
  }

  /** Scenario `k` has the id and none before it has. */
  predicate IsFirstMatch(scenarios: seq<Dict>, id: string, k: int)
    requires 0 <= k < |scenarios|
  {
    HasId(scenarios[k], id) && forall j :: 0 <= j < k ==> !HasId(scenarios[j], id)
  }

  /** The found scenario is unique: at most one index is the first match. */
  lemma FirstMatchIsUnique(scenarios: seq<Dict>, id: string, k1: int, k2: int)
    requires 0 <= k1 < |scenarios| && 0 <= k2 < |scenarios|
    requires IsFirstMatch(scenarios, id, k1) && IsFirstMatch(scenarios, id, k2)
    ensures k1 == k2
  {
  }

  /** The keys of the run parameters. */
  const ParameterKeys: set<string> := {"seed", "intent", "market_conditions", "time_elapsed", "tau",
                                       "simulation_override", "expected_decision", "expected_reason"}

  /**
   * `apply_scenario`: seed 42, empty intent and market conditions, no time
   * elapsed and tau 10.0 unless the scenario says otherwise; the optional
   * override and expectations pass through or are None.
   */
  function ApplyScenario(scenario: Dict): (p: Dict)
    ensures p.Keys == ParameterKeys
    ensures forall key :: key in ParameterKeys && key in scenario ==> p[key] == scenario[key]
    ensures "seed" !in scenario ==> p["seed"] == VInt(42)
    ensures "intent" !in scenario ==> p["intent"] == VDict(map[])
    ensures "market_conditions" !in scenario ==> p["market_conditions"] == VDict(map[])
    ensures "time_elapsed" !in scenario ==> p["time_elapsed"] == VFloat(0.0)
    ensures "tau" !in scenario ==> p["tau"] == VFloat(10.0)
    ensures "simulation_override" !in scenario ==> p["simulation_override"] == VNone
    ensures "expected_decision" !in scenario ==> p["expected_decision"] == VNone
    ensures "expected_reason" !in scenario ==> p["expected_reason"] == VNone
  {
    map[
      "seed" := Get(scenario, "seed", VInt(42)),
      "intent" := Get(scenario, "intent", VDict(map[])),
      "market_conditions" := Get(scenario, "market_conditions", VDict(map[])),
      "time_elapsed" := Get(scenario, "time_elapsed", VFloat(0.0)),
      "tau" := Get(scenario, "tau", VFloat(10.0)),
      "simulation_override" := Get(scenario, "simulation_override", VNone),
      "expected_decision" := Get(scenario, "expected_decision", VNone),
      "expected_reason" := Get(scenario, "expected_reason", VNone)
    ]
  }

  /** The defaults, for a scenario that sets nothing. */
  lemma DefaultParameters()
    ensures var p := ApplyScenario(map[]);
            p["seed"] == VInt(42) && p["intent"] == VDict(map[]) && p["market_conditions"] == VDict(map[])
            && p["time_elapsed"] == VFloat(0.0) && p["tau"] == VFloat(10.0)
            && p["simulation_override"] == VNone && p["expected_decision"] == VNone && p["expected_reason"] == VNone
  {
  }

  /** Applying the parameters as a scenario again changes nothing. */
  lemma ApplyScenarioIdempotent(scenario: Dict)
    ensures ApplyScenario(ApplyScenario(scenario)) == ApplyScenario(scenario)
  {
    var p := ApplyScenario(scenario);
    var q := ApplyScenario(p);
    assert q.Keys == p.Keys;
    assert forall key :: key in q ==> q[key] == p[key];
  }

  /** Only the eight parameter keys of a scenario matter. */
  lemma ApplyScenarioIgnoresOtherKeys(s1: Dict, s2: Dict)
    requires forall key :: key in ParameterKeys ==> (key in s1 <==> key in s2)
    requires forall key :: key in ParameterKeys && key in s1 ==> s1[key] == s2[key]
    ensures ApplyScenario(s1) == ApplyScenario(s2)
  {
    var p1, p2 := ApplyScenario(s1), ApplyScenario(s2);
    assert forall key :: key in p1 ==> p1[key] == p2[key];
  }
}
