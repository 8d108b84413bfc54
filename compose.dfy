/**
 * Composition of governance gates with the precedence BLOCK > HOLD > ALLOW:
 * gates are asked in order, the first BLOCK ends the composition, a HOLD is
 * remembered, and the result is ALLOW only when no gate objected. A gate that
 * raises (a missing context key, a non-numeric field) makes the composition
 * raise.
 */
module Composition {
  import opened Wrappers
  import opened Values

  datatype Verdict = ALLOW | HOLD | BLOCK

  /** The precedence of a verdict. */
  function Severity(v: Verdict): nat {
    match v
    case ALLOW => 0
    case HOLD => 1
    case BLOCK => 2
  }

  /** The stronger of two verdicts. */
  function Join(a: Verdict, b: Verdict): (j: Verdict)
    ensures Severity(j) == if Severity(a) >= Severity(b) then Severity(a) else Severity(b)
    ensures j == a || j == b
  {
    if Severity(a) >= Severity(b) then a else b
  }

  /** A gate reads the context and votes, or raises. */
  type Gate = Dict -> Result<Verdict>

  /** What each gate would answer, in order. */
  function Outcomes(gates: seq<Gate>, ctx: Dict): (outs: seq<Result<Verdict>>)
    ensures |outs| == |gates| && forall i :: 0 <= i < |gates| ==> outs[i] == gates[i](ctx)
  {
    seq(|gates|, i requires 0 <= i < |gates| => gates[i](ctx))
  }

  /**
   * The composed outcome of a sequence of gate answers: left to right, a raise
   * or a BLOCK stops, otherwise the strongest verdict wins.
   */
  function Combine(outs: seq<Result<Verdict>>): Result<Verdict> {
    if outs == [] then Ok(ALLOW)
    else match outs[0]
      case Raise(e) => Raise(e)
      case Ok(BLOCK) => Ok(BLOCK)
      case Ok(v) => After(v, Combine(outs[1..]))
  }

  /** A non-blocking verdict followed by the outcome of the remaining gates. */
  function After(v: Verdict, rest: Result<Verdict>): Result<Verdict> {
    match rest
    case Raise(e) => Raise(e)
    case Ok(BLOCK) => Ok(BLOCK)
    case Ok(w) => Ok(Join(v, w))
  }

  /** `compose_gates(gates, ctx)`. */
  method ComposeGates(gates: seq<Gate>, ctx: Dict) returns (r: Result<Verdict>)
    ensures r == Combine(Outcomes(gates, ctx))
  {
    ghost var outs := Outcomes(gates, ctx);
    var decision := ALLOW;
    var i := 0;
    while i < |gates|
      invariant 0 <= i <= |gates|
      invariant decision != BLOCK
      invariant Combine(outs) == After(decision, Combine(outs[i..]))
    {
      assert outs[i..][1..] == outs[i + 1..];
      var d := gates[i](ctx);
      if d.Raise? {
        return Raise(d.error);
      }
      if d.value == BLOCK {
        return Ok(BLOCK);
      }
      if d.value == HOLD {
        decision := HOLD;
      }
      i := i + 1;
    }
    assert outs[i..] == [];
    return Ok(decision);
  }

  predicate AllOk(outs: seq<Result<Verdict>>) {
    forall i :: 0 <= i < |outs| ==> outs[i].Ok?
  }

  /** The verdict the answers of non-raising gates add up to, independent of their order. */
  function Strongest(votes: set<Verdict>): Verdict {
    if BLOCK in votes then BLOCK else if HOLD in votes then HOLD else ALLOW
  }

  function Votes(outs: seq<Result<Verdict>>): set<Verdict>
    requires AllOk(outs)
  {
    set i | 0 <= i < |outs| :: outs[i].value
  }

  /** When no gate raises, the composition is the strongest verdict any gate gave. */
  lemma {:induction false} CombineIsStrongest(outs: seq<Result<Verdict>>)
    requires AllOk(outs)
    ensures Combine(outs) == Ok(Strongest(Votes(outs)))
  {
    if outs != [] {
      var tail := outs[1..];
      CombineIsStrongest(tail);
      assert Votes(outs) == {outs[0].value} + Votes(tail) by {
        forall v | v in Votes(outs) ensures v in {outs[0].value} + Votes(tail) {
          var i :| 0 <= i < |outs| && outs[i].value == v;
          if i > 0 { assert tail[i - 1] == outs[i]; }
        }
        forall v | v in Votes(tail) ensures v in Votes(outs) {
          var i :| 0 <= i < |tail| && tail[i].value == v;
          assert outs[i + 1] == tail[i];
        }
      }
    } else {
      assert Votes(outs) == {};
    }
  }

  /**
   * BLOCK dominates: the composition blocks exactly when some gate blocks
   * before any gate raises.
   */
  lemma {:induction false} BlockIffSomeGateBlocks(outs: seq<Result<Verdict>>)
    ensures Combine(outs) == Ok(BLOCK) <==>
            exists j :: 0 <= j < |outs| && outs[j] == Ok(BLOCK) && AllOk(outs[..j])
  {
    if outs != [] {
      BlockIffSomeGateBlocks(outs[1..]);
      if Combine(outs) == Ok(BLOCK) {
        if outs[0] != Ok(BLOCK) {
          var j :| 0 <= j < |outs[1..]| && outs[1..][j] == Ok(BLOCK) && AllOk(outs[1..][..j]);
          assert outs[..j + 1] == [outs[0]] + outs[1..][..j];
          assert outs[j + 1] == Ok(BLOCK);
        } else {
          assert outs[..0] == [];
        }
      }
      if exists j :: 0 <= j < |outs| && outs[j] == Ok(BLOCK) && AllOk(outs[..j]) {
        var j :| 0 <= j < |outs| && outs[j] == Ok(BLOCK) && AllOk(outs[..j]);
        if j > 0 {
          assert outs[..j][0] == outs[0];
          assert outs[1..][j - 1] == Ok(BLOCK);
          assert outs[1..][..j - 1] == outs[..j][1..];
        }
      }
    }
  }

  /** ALLOW only if all gates allow. */
  lemma {:induction false} AllowIffAllAllow(outs: seq<Result<Verdict>>)
    ensures Combine(outs) == Ok(ALLOW) <==> forall j :: 0 <= j < |outs| ==> outs[j] == Ok(ALLOW)
  {
    if outs != [] {
      AllowIffAllAllow(outs[1..]);
      if forall j :: 0 <= j < |outs| ==> outs[j] == Ok(ALLOW) {
        assert forall j :: 0 <= j < |outs[1..]| ==> outs[1..][j] == outs[j + 1];
      }
      if Combine(outs) == Ok(ALLOW) {
        forall j | 0 <= j < |outs| ensures outs[j] == Ok(ALLOW) {
          if j > 0 { assert outs[j] == outs[1..][j - 1]; }
        }
      }
    }
  }

  /** One HOLD anywhere is enough to rule out ALLOW (non-anticipation). */
  lemma HoldRulesOutAllow(outs: seq<Result<Verdict>>, j: nat)
    requires j < |outs| && outs[j] == Ok(HOLD)
    ensures Combine(outs) != Ok(ALLOW)
  {
    AllowIffAllAllow(outs);
  }

  /** For gates that do not raise, the order in which they are asked does not matter. */
  lemma OrderDoesNotMatter(a: seq<Result<Verdict>>, b: seq<Result<Verdict>>)
    requires AllOk(a) && AllOk(b) && multiset(a) == multiset(b)
    ensures Combine(a) == Combine(b)
  {
    CombineIsStrongest(a);
    CombineIsStrongest(b);
    assert Votes(a) == Votes(b) by {
      forall v | v in Votes(a) ensures v in Votes(b) {
        var i :| 0 <= i < |a| && a[i].value == v;
        assert a[i] in multiset(b);
        var k :| 0 <= k < |b| && b[k] == a[i];
      }
      forall v | v in Votes(b) ensures v in Votes(a) {
        var i :| 0 <= i < |b| && b[i].value == v;
        assert b[i] in multiset(a);
        var k :| 0 <= k < |a| && a[k] == b[i];
      }
    }
  }

  /** Composing a composed stack as a single gate gives the flat composition. */
  lemma {:induction false} CombineNested(a: seq<Result<Verdict>>, b: seq<Result<Verdict>>)
    ensures Combine([Combine(a)] + b) == Combine(a + b)
  {
    if a == [] {
      assert [] + b == b;
      assert ([Ok(ALLOW)] + b)[1..] == b;
      match Combine(b)
      case Raise(_) =>
      case Ok(w) =>
    } else {
      assert (a + b)[0] == a[0];
      assert (a + b)[1..] == a[1..] + b;
      CombineNested(a[1..], b);
      var rest := [Combine(a[1..])] + b;
      assert rest[1..] == b;
      assert ([Combine(a)] + b)[1..] == b;
    }
  }

  /** The temporal gate of the composition suite: `ctx["irreversible"] and ctx["now"] - ctx["t0"] < ctx["tau"]`. */
  function GateX108(ctx: Dict): Result<Verdict> {
    if "irreversible" !in ctx then Raise(KeyError("irreversible"))
    else if !Truthy(ctx["irreversible"]) then Ok(ALLOW)
    else ElapsedBelowTau(ctx)
  }

  /**
   * The temporal gate of the monotonicity suite, which computes the elapsed
   * time before it looks at `irreversible`.
   */
  function GateX108Eager(ctx: Dict): Result<Verdict> {
    var elapsed := Difference(ctx, "now", "t0");
    if elapsed.Raise? then Raise(elapsed.error)
    else if "irreversible" !in ctx then Raise(KeyError("irreversible"))
    else if !Truthy(ctx["irreversible"]) then Ok(ALLOW)
    else if "tau" !in ctx then Raise(KeyError("tau"))
    else
      var tau := Number(ctx["tau"]);
      if tau.Raise? then Raise(tau.error)
      else Ok(if elapsed.value < tau.value then HOLD else ALLOW)
  }

  /** `ctx[a] - ctx[b]` on numbers. */
  function Difference(ctx: Dict, a: string, b: string): Result<real> {
    if a !in ctx then Raise(KeyError(a))
    else if b !in ctx then Raise(KeyError(b))
    else
      var x := Number(ctx[a]);
      var y := Number(ctx[b]);
      if x.Raise? then Raise(x.error)
      else if y.Raise? then Raise(y.error)
      else Ok(x.value - y.value)
  }

  function ElapsedBelowTau(ctx: Dict): Result<Verdict> {
    var elapsed := Difference(ctx, "now", "t0");
    if elapsed.Raise? then Raise(elapsed.error)
    else if "tau" !in ctx then Raise(KeyError("tau"))
    else
      var tau := Number(ctx["tau"]);
      if tau.Raise? then Raise(tau.error)
      else Ok(if elapsed.value < tau.value then HOLD else ALLOW)
  }

  /** The score gate: ALLOW only above 0.99 (a missing score counts as 0). */
  function GateScore(ctx: Dict): Result<Verdict> {
    var score := Number(Get(ctx, "score", VInt(0)));
    if score.Raise? then Raise(score.error)
    else Ok(if score.value > 0.99 then ALLOW else HOLD)
  }

  /** The contract gate: BLOCK when `contract_ok` is falsy (a missing flag counts as true). */
  function GateContract(ctx: Dict): Verdict {
    if Truthy(Get(ctx, "contract_ok", VBool(true))) then ALLOW else BLOCK
  }

  /** The two temporal gates differ only in which errors they raise. */
  lemma TemporalGatesAgreeWhenDefined(ctx: Dict)
    requires GateX108(ctx).Ok? && GateX108Eager(ctx).Ok?
    ensures GateX108(ctx) == GateX108Eager(ctx)
  {
  }

  /** A reversible action with no clock readings passes the first gate and makes the eager one raise. */
  lemma EagerGateNeedsClock()
    ensures GateX108(map["irreversible" := VBool(false)]) == Ok(ALLOW)
    ensures GateX108Eager(map["irreversible" := VBool(false)]) == Raise(KeyError("now"))
  {
  }

  /** The context the suites build. */
  function SuiteContext(irreversible: bool, t0: real, now: real, tau: real, score: real, contractOk: bool): Dict {
    map["irreversible" := VBool(irreversible), "t0" := VFloat(t0), "now" := VFloat(now),
        "tau" := VFloat(tau), "score" := VFloat(score), "contract_ok" := VBool(contractOk)]
  }

  /** The stack [x108, score, contract] the suites compose. */
  function SuiteStack(eager: bool): seq<Gate> {
    [if eager then GateX108Eager else GateX108, GateScore, (ctx: Dict) => Ok(GateContract(ctx))]
  }

  /**
   * Composition preserves non-anticipation: before tau an irreversible
   * action is held whatever the other gates say, by either temporal gate.
   */
  lemma NonAnticipation(eager: bool, t0: real, now: real, tau: real, score: real)
    requires now - t0 < tau
    ensures Combine(Outcomes(SuiteStack(eager), SuiteContext(true, t0, now, tau, score, true))) == Ok(HOLD)
  {
    var outs := Outcomes(SuiteStack(eager), SuiteContext(true, t0, now, tau, score, true));
    assert outs[0] == Ok(HOLD);
    CombineIsStrongest(outs);
    assert Votes(outs) <= {HOLD, ALLOW} by {
      forall v | v in Votes(outs) ensures v in {HOLD, ALLOW} {
        var i :| 0 <= i < |outs| && outs[i].value == v;
      }
    }
    assert HOLD in Votes(outs);
  }

  /** A failed contract blocks, whatever the clock and the score. */
  lemma BlockDominates(eager: bool, irreversible: bool, t0: real, now: real, tau: real, score: real)
    ensures Combine(Outcomes(SuiteStack(eager), SuiteContext(irreversible, t0, now, tau, score, false))) == Ok(BLOCK)
  {
    var outs := Outcomes(SuiteStack(eager), SuiteContext(irreversible, t0, now, tau, score, false));
    assert outs[2] == Ok(BLOCK);
    assert AllOk(outs[..2]);
    BlockIffSomeGateBlocks(outs);
  }

  /** A reversible action with a high score and a valid contract is allowed. */
  lemma AllAllow(eager: bool, t0: real, now: real, tau: real)
    ensures Combine(Outcomes(SuiteStack(eager), SuiteContext(false, t0, now, tau, 1.0, true))) == Ok(ALLOW)
  {
    var outs := Outcomes(SuiteStack(eager), SuiteContext(false, t0, now, tau, 1.0, true));
    AllowIffAllAllow(outs);
  }
}
