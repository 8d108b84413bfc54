/**
 * The dashboard's session state: the run configuration (seed, tau,
 * domain, mode), the flags saying which derived data are up to date, and
 * the cached results a configuration change invalidates.
 */
module SessionState {
  import opened Wrappers
  import opened Values

  /** The configuration a fresh session starts with. */
  const DefaultConfig: Dict := map["seed" := VInt(42), "tau" := VFloat(10.0),
                                   "domain" := VStr("Trading (ERC-8004)"), "mode" := VStr("Proof (Deterministic)")]

  /** Nothing computed yet, and no hash recorded. */
  const DefaultFlags: Dict := map["features_computed" := VBool(false), "simulation_done" := VBool(false),
                                  "governance_tested" := VBool(false), "features_hash" := VNone,
                                  "simulation_hash" := VNone, "governance_hash" := VNone]

  /** The cached results that depend on the seed and the domain. */
  const SeedCaches: set<string> := {"features", "simulation", "gates_result"}

  /** The configuration and the flags, where present, are dicts. */
  predicate Shaped(s: Dict) {
    ("config" in s ==> s["config"].VDict?) && ("data_flags" in s ==> s["data_flags"].VDict?)
  }

  function ConfigOf(s: Dict): Dict
    requires Shaped(s) && "config" in s
  {
    s["config"].entries
  }

  function FlagsOf(s: Dict): Dict
    requires Shaped(s) && "data_flags" in s
  {
    s["data_flags"].entries
  }

  /** `init_config_state`: the defaults for whatever of the two is missing; nothing present is overwritten. */
  function Initialised(s: Dict): (t: Dict)
    ensures t.Keys == s.Keys + {"config", "data_flags"}
    ensures forall k :: k in s ==> t[k] == s[k]
    ensures "config" !in s ==> t["config"] == VDict(DefaultConfig)
    ensures "data_flags" !in s ==> t["data_flags"] == VDict(DefaultFlags)
  {
    var s1 := if "config" in s then s else s["config" := VDict(DefaultConfig)];
    if "data_flags" in s1 then s1 else s1["data_flags" := VDict(DefaultFlags)]
  }

  /** Initialising twice is initialising once, and the result is shaped if the input was. */
  lemma InitialisedIdempotent(s: Dict)
    ensures Initialised(Initialised(s)) == Initialised(s)
    ensures Shaped(s) ==> Shaped(Initialised(s))
  {
  }

  /** The new state of an operation, and what it returned or raised. */
  datatype Step<T> = Step(result: Result<T>, state: Dict)

  /**
   * `update_config`: an unknown key or an unchanged value does nothing;
   * otherwise the value is stored, and a seed or domain change clears the
   * three flags and drops the cached features, simulation and gates
   * result, while a tau change clears only the governance flag and the
   * gates result. The result says whether data must be recomputed.
   */
  function UpdateConfig(s: Dict, key: string, value: Value): (u: Step<bool>)
    requires Shaped(s)
    ensures Shaped(u.state)
  {
    if "config" !in s then Step(Raise(AttributeError("config")), s)
    else
      var cfg := ConfigOf(s);
      if key !in cfg || PyEq(cfg[key], value) then Step(Ok(false), s)
      else
        var s1 := s["config" := VDict(cfg[key := value])];
        if key == "seed" || key == "domain" then
          if "data_flags" !in s1 then Step(Raise(AttributeError("data_flags")), s1)
          else
            var flags := FlagsOf(s1)["features_computed" := VBool(false)]["simulation_done" := VBool(false)]
                                    ["governance_tested" := VBool(false)];
            Step(Ok(true), s1["data_flags" := VDict(flags)] - SeedCaches)
        else if key == "tau" then
          if "data_flags" !in s1 then Step(Raise(AttributeError("data_flags")), s1)
          else
            var flags := FlagsOf(s1)["governance_tested" := VBool(false)];
            Step(Ok(true), s1["data_flags" := VDict(flags)] - {"gates_result"})
        else Step(Ok(false), s1)
  }

  /** `cfg[key]`. */
  function Lookup(d: Dict, key: string): (r: Result<Value>)
    ensures r.Ok? <==> key in d
    ensures r.Ok? ==> r.value == d[key]
    ensures r.Raise? ==> r.error == KeyError(key)
  {
    if key in d then Ok(d[key]) else Raise(KeyError(key))
  }

  /** The fingerprint of a configuration: `"seed_domain"`, or `"seed_domain_tau"`. */
  function Hash(cfg: Dict, withTau: bool, show: Value -> string): (r: Result<string>)
    ensures r.Ok? <==> "seed" in cfg && "domain" in cfg && (withTau ==> "tau" in cfg)
  {
    var seed :- Lookup(cfg, "seed");
    var domain :- Lookup(cfg, "domain");
    if withTau then
      var tau :- Lookup(cfg, "tau");
      Ok(Format(seed, show) + "_" + Format(domain, show) + "_" + Format(tau, show))
    else Ok(Format(seed, show) + "_" + Format(domain, show))
  }

  /** Which flag and which hash a kind of derived data uses, and whether tau enters its hash. */
  datatype Kind = Features | Simulation | Governance {
    function Flag(): string {
      match this
      case Features => "features_computed"
      case Simulation => "simulation_done"
      case Governance => "governance_tested"
    }
    function HashKey(): string {
      match this
      case Features => "features_hash"
      case Simulation => "simulation_hash"
      case Governance => "governance_hash"
    }
    predicate WithTau() {
      Governance?
    }
  }

  /** `mark_features_computed` and its siblings: set the flag, then record the hash of the current configuration. */
  function Mark(s: Dict, kind: Kind, show: Value -> string): (u: Step<()>)
    requires Shaped(s)
    ensures Shaped(u.state)
  {
    if "data_flags" !in s then Step(Raise(AttributeError("data_flags")), s)
    else
      var flags := FlagsOf(s)[kind.Flag() := VBool(true)];
      var s1 := s["data_flags" := VDict(flags)];
      if "config" !in s1 then Step(Raise(AttributeError("config")), s1)
      else match Hash(ConfigOf(s1), kind.WithTau(), show)
        case Raise(e) => Step(Raise(e), s1)
        case Ok(h) => Step(Ok(()), s1["data_flags" := VDict(flags[kind.HashKey() := VStr(h)])])
  }

  /** `is_features_valid` and its siblings: the flag is set and the recorded hash is that of the current configuration. */
  function IsValid(s: Dict, kind: Kind, show: Value -> string): (r: Result<bool>)
    requires Shaped(s)
    ensures r == Ok(true) <==>
              && "data_flags" in s && kind.Flag() in FlagsOf(s) && Truthy(FlagsOf(s)[kind.Flag()])
              && "config" in s && Hash(ConfigOf(s), kind.WithTau(), show).Ok?
              && PyEq(Get(FlagsOf(s), kind.HashKey(), VNone), VStr(Hash(ConfigOf(s), kind.WithTau(), show).value))
    ensures r.Raise? <==>
              || "data_flags" !in s || kind.Flag() !in FlagsOf(s)
              || (Truthy(FlagsOf(s)[kind.Flag()]) && ("config" !in s || Hash(ConfigOf(s), kind.WithTau(), show).Raise?))
  {
    if "data_flags" !in s then Raise(AttributeError("data_flags"))
    else
      var flag :- Lookup(FlagsOf(s), kind.Flag());
      if !Truthy(flag) then Ok(false)
      else if "config" !in s then Raise(AttributeError("config"))
      else
        var h :- Hash(ConfigOf(s), kind.WithTau(), show);
        Ok(PyEq(Get(FlagsOf(s), kind.HashKey(), VNone), VStr(h)))
  }

  // ---------------------------------------------------------------- properties

  /** An unknown key, or a value equal to the stored one, changes nothing and asks for nothing. */
  lemma NoChangeNoRecompute(s: Dict, key: string, value: Value)
    requires Shaped(s) && "config" in s
    requires key !in ConfigOf(s) || PyEq(ConfigOf(s)[key], value)
    ensures UpdateConfig(s, key, value) == Step(Ok(false), s)
  {
  }

  /** A changed seed or domain invalidates everything derived from it. */
  lemma SeedOrDomainChangeInvalidates(s: Dict, key: string, value: Value)
    requires Shaped(s) && "config" in s && "data_flags" in s
    requires key == "seed" || key == "domain"
    requires key in ConfigOf(s) && !PyEq(ConfigOf(s)[key], value)
    ensures var u := UpdateConfig(s, key, value);
            u.result == Ok(true)
            && ConfigOf(u.state) == ConfigOf(s)[key := value]
            && u.state.Keys == s.Keys - SeedCaches
            && FlagsOf(u.state)["features_computed"] == VBool(false)
            && FlagsOf(u.state)["simulation_done"] == VBool(false)
            && FlagsOf(u.state)["governance_tested"] == VBool(false)
            && (forall k :: k in s && k !in SeedCaches && k != "config" && k != "data_flags" ==> u.state[k] == s[k])
  {
  }

  /** A changed tau invalidates only the governance result. */
  lemma TauChangeInvalidatesGovernance(s: Dict, value: Value)
    requires Shaped(s) && "config" in s && "data_flags" in s
    requires "tau" in ConfigOf(s) && !PyEq(ConfigOf(s)["tau"], value)
    ensures var u := UpdateConfig(s, "tau", value);
            u.result == Ok(true)
            && ConfigOf(u.state) == ConfigOf(s)["tau" := value]
            && u.state.Keys == s.Keys - {"gates_result"}
            && FlagsOf(u.state) == FlagsOf(s)["governance_tested" := VBool(false)]
            && (forall k :: k in s && k != "gates_result" && k != "config" && k != "data_flags" ==> u.state[k] == s[k])
  {
  }

  /** Any other changed key (the mode) is stored, with no invalidation and no recompute. */
  lemma OtherChangeIsOnlyStored(s: Dict, key: string, value: Value)
    requires Shaped(s) && "config" in s
    requires key != "seed" && key != "domain" && key != "tau"
    requires key in ConfigOf(s) && !PyEq(ConfigOf(s)[key], value)
    ensures UpdateConfig(s, key, value) == Step(Ok(false), s["config" := VDict(ConfigOf(s)[key := value])])
  {
  }

  /** Right after marking, the data count as up to date. */
  lemma MarkThenValid(s: Dict, kind: Kind, show: Value -> string)
    requires Shaped(s) && "config" in s && "data_flags" in s
    requires "seed" in ConfigOf(s) && "domain" in ConfigOf(s) && (kind.WithTau() ==> "tau" in ConfigOf(s))
    ensures Mark(s, kind, show).result == Ok(())
    ensures IsValid(Mark(s, kind, show).state, kind, show) == Ok(true)
  {
    var flags := FlagsOf(s)[kind.Flag() := VBool(true)];
    var s1 := s["data_flags" := VDict(flags)];
    assert ConfigOf(s1) == ConfigOf(s);
    var h := Hash(ConfigOf(s), kind.WithTau(), show).value;
    var t := Mark(s, kind, show).state;
    assert t == s1["data_flags" := VDict(flags[kind.HashKey() := VStr(h)])];
    assert kind.Flag() != kind.HashKey();
    assert FlagsOf(t)[kind.Flag()] == VBool(true);
    assert ConfigOf(t) == ConfigOf(s);
  }

  /** After a seed or domain change nothing derived is valid any more. */
  lemma SeedChangeThenInvalid(s: Dict, key: string, value: Value, kind: Kind, show: Value -> string)
    requires Shaped(s) && "config" in s && "data_flags" in s
    requires key == "seed" || key == "domain"
    requires key in ConfigOf(s) && !PyEq(ConfigOf(s)[key], value)
    ensures IsValid(UpdateConfig(s, key, value).state, kind, show) == Ok(false)
  {
    SeedOrDomainChangeInvalidates(s, key, value);
  }

  /** After a tau change the governance result is invalid, and features and simulation keep their validity. */
  lemma TauChangeThenValidity(s: Dict, value: Value, show: Value -> string)
    requires Shaped(s) && "config" in s && "data_flags" in s
    requires "tau" in ConfigOf(s) && !PyEq(ConfigOf(s)["tau"], value)
    ensures IsValid(UpdateConfig(s, "tau", value).state, Governance, show) == Ok(false)
    ensures IsValid(UpdateConfig(s, "tau", value).state, Features, show) == IsValid(s, Features, show)
    ensures IsValid(UpdateConfig(s, "tau", value).state, Simulation, show) == IsValid(s, Simulation, show)
  {
    TauChangeInvalidatesGovernance(s, value);
    var t := UpdateConfig(s, "tau", value).state;
    assert Hash(ConfigOf(t), false, show) == Hash(ConfigOf(s), false, show);
  }

  /** The session, as the app mutates it. */
  class Session {
    var state: Dict

    predicate Valid()
      reads this
    {
      Shaped(state)
    }

    constructor(initial: Dict)
      requires Shaped(initial)
      ensures Valid() && state == initial
    {
      state := initial;
    }

    /** `init_config_state`. */
    method InitConfigState()
      requires Valid()
      modifies this
      ensures Valid() && state == Initialised(old(state))
    {
      if "config" !in state {
        state := state["config" := VDict(DefaultConfig)];
      }
      if "data_flags" !in state {
        state := state["data_flags" := VDict(DefaultFlags)];
      }
    }

    /** Clear the three flags and drop the caches that depend on the seed and the domain. */
    method InvalidateAll()
      requires Valid() && "data_flags" in state
      modifies this
      ensures Valid()
      ensures state == old(state)["data_flags" := VDict(FlagsOf(old(state))["features_computed" := VBool(false)]
                                                  ["simulation_done" := VBool(false)]["governance_tested" := VBool(false)])]
                      - SeedCaches
    {
      var flags := state["data_flags"].entries;
      flags := flags["features_computed" := VBool(false)];
      flags := flags["simulation_done" := VBool(false)];
      flags := flags["governance_tested" := VBool(false)];
      state := state["data_flags" := VDict(flags)];
      if "features" in state {
        state := state - {"features"};
      }
      if "simulation" in state {
        state := state - {"simulation"};
      }
      if "gates_result" in state {
        state := state - {"gates_result"};
      }
    }

    /** Clear the governance flag and drop the gates result. */
    method InvalidateGovernance()
      requires Valid() && "data_flags" in state
      modifies this
      ensures Valid()
      ensures state == old(state)["data_flags" := VDict(FlagsOf(old(state))["governance_tested" := VBool(false)])]
                       - {"gates_result"}
    {
      var flags := state["data_flags"].entries;
      state := state["data_flags" := VDict(flags["governance_tested" := VBool(false)])];
      if "gates_result" in state {
        state := state - {"gates_result"};
      }
    }

    /** `update_config`. */
    method Update(key: string, value: Value) returns (recompute: Result<bool>)
      requires Valid()
      modifies this
      ensures Valid() && Step(recompute, state) == UpdateConfig(old(state), key, value)
    {
      if "config" !in state {
        return Raise(AttributeError("config"));
      }
      var cfg := state["config"].entries;
      if key !in cfg {
        return Ok(false);
      }
      var oldValue := cfg[key];
      if !PyEq(oldValue, value) {
        state := state["config" := VDict(cfg[key := value])];
        if key == "seed" || key == "domain" {
          if "data_flags" !in state {
            return Raise(AttributeError("data_flags"));
          }
          InvalidateAll();
          return Ok(true);
        } else if key == "tau" {
          if "data_flags" !in state {
            return Raise(AttributeError("data_flags"));
          }
          InvalidateGovernance();
          return Ok(true);
        }
      }
      return Ok(false);
    }

    /** `mark_features_computed`, `mark_simulation_done`, `mark_governance_tested`. */
    method MarkDone(kind: Kind, show: Value -> string) returns (outcome: Result<()>)
      requires Valid()
      modifies this
      ensures Valid() && Step(outcome, state) == Mark(old(state), kind, show)
    {
      if "data_flags" !in state {
        return Raise(AttributeError("data_flags"));
      }
      var flags := state["data_flags"].entries[kind.Flag() := VBool(true)];
      state := state["data_flags" := VDict(flags)];
      if "config" !in state {
        return Raise(AttributeError("config"));
      }
      var h := Hash(state["config"].entries, kind.WithTau(), show);
      if h.Raise? {
        return Raise(h.error);
      }
      state := state["data_flags" := VDict(flags[kind.HashKey() := VStr(h.value)])];
      return Ok(());
    }
  }
}
