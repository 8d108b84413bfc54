/**
 * The OS0 sandbox: an interpreter of IR programs over a store of named
 * values, a clock that never runs backwards, loops bounded by `max_iters`, a
 * registry of callable functions and a numbered step log. `Execute` is the
 * specification of one run; the class `Sandbox` performs it in place.
 */
module Sandbox {
  import opened Wrappers
  import opened Ir
  import Text

  /** One log entry: its step number and the class of the node that made it (the free-text detail is not modelled). */
  datatype ExecLog = ExecLog(step: int, node: string)

  /** The four mutable fields of a sandbox at one moment. */
  datatype Machine = Machine(state: map<string, Val>, time: int, log: seq<ExecLog>, step: int)

  /** A new sandbox: no names, time 0, an empty log. */
  const Fresh: Machine := Machine(map[], 0, [], 0)

  /** The call registry: each function takes the evaluated arguments and returns or raises. */
  type Registry = map<string, seq<Val> -> Result<Val>>

  /** What running a node gives: the result, and the machine as it is afterwards (also after a raise). */
  datatype Outcome = Outcome(result: Result<Val>, after: Machine)

  /** `_tick(node)`: one more step, logged under the node's class name. */
  function Ticked(m: Machine, node: string): (m': Machine)
    ensures m'.log == m.log + [ExecLog(m.step + 1, node)] && m'.step == m.step + 1
    ensures m'.state == m.state && m'.time == m.time
  {
    m.(step := m.step + 1, log := m.log + [ExecLog(m.step + 1, node)])
  }

  function Fail(message: string, code: string): Exception {
    ERROR(message, code).Raised()
  }

  // ----- values -----------------------------------------------------------

  predicate IsNumber(v: Val) {
    v.VBool? || v.VInt? || v.VFloat?
  }

  /** `bool` and `int`, which Python's integer arithmetic keeps exact. */
  predicate IsIntegral(v: Val) {
    v.VBool? || v.VInt?
  }

  function IntOf(v: Val): int
    requires IsIntegral(v)
  {
    if v.VBool? then (if v.b then 1 else 0) else v.i
  }

  function Num(v: Val): real
    requires IsNumber(v)
  {
    if v.VFloat? then v.r else IntOf(v) as real
  }

  /** `bool(v)`. A list is true when it is non-empty; every IR node is true. */
  predicate Truthy(v: Val) {
    match v
    case VNone => false
    case VBool(b) => b
    case VInt(i) => i != 0
    case VFloat(r) => r != 0.0
    case VStr(s) => s != ""
    case VDict(d) => d != map[]
    case VNode(n) => !n.Items? || n.items != []
  }

  /** `a == b`: numbers compare by value across `bool`, `int` and `float`; everything else structurally. */
  predicate Equal(a: Val, b: Val) {
    if IsNumber(a) && IsNumber(b) then Num(a) == Num(b) else a == b
  }

  /** Lexicographic order of strings by code point. */
  predicate StrLess(a: string, b: string)
    decreases |a|
  {
    if |a| == 0 then |b| > 0
    else if |b| == 0 then false
    else if a[0] != b[0] then a[0] < b[0]
    else StrLess(a[1..], b[1..])
  }

  /** `s * n` for a string: `n` copies, none when `n <= 0`. */
  function Repeat(s: string, n: int): (r: string)
    ensures |r| == (if n <= 0 then 0 else n * |s|)
    decreases if n <= 0 then 0 else n
  {
    if n <= 0 then "" else s + Repeat(s, n - 1)
  }

  /** The ten operators a tuple expression may name. */
  const Operators: set<string> := {"<", "<=", ">", ">=", "==", "!=", "+", "-", "*", "/"}

  /** `<`, `<=`, `>`, `>=`: numbers by value, strings lexicographically, anything else raises `TypeError`. */
  function Compare(op: string, a: Val, b: Val): Result<Val>
    requires op in {"<", "<=", ">", ">="}
  {
    if IsNumber(a) && IsNumber(b) then
      var x, y := Num(a), Num(b);
      Ok(VBool(if op == "<" then x < y else if op == "<=" then x <= y else if op == ">" then x > y else x >= y))
    else if a.VStr? && b.VStr? then
      var lt, eq := StrLess(a.s, b.s), a.s == b.s;
      Ok(VBool(if op == "<" then lt else if op == "<=" then lt || eq else if op == ">" then !lt && !eq else !lt))
    else Raise(TypeError)
  }

  /** `+`, `-`, `*`, `/` with Python's typing: exact on integers, `float` otherwise, `/` always `float`. */
  function Arith(op: string, a: Val, b: Val): Result<Val>
    requires op in {"+", "-", "*", "/"}
  {
    if IsNumber(a) && IsNumber(b) then
      if op == "/" then
        if Num(b) == 0.0 then Raise(ZeroDivisionError) else Ok(VFloat(Num(a) / Num(b)))
      else if IsIntegral(a) && IsIntegral(b) then
        var x, y := IntOf(a), IntOf(b);
        Ok(VInt(if op == "+" then x + y else if op == "-" then x - y else x * y))
      else
        var x, y := Num(a), Num(b);
        Ok(VFloat(if op == "+" then x + y else if op == "-" then x - y else x * y))
    else if op == "+" && a.VStr? && b.VStr? then Ok(VStr(a.s + b.s))
    else if op == "*" && a.VStr? && IsIntegral(b) then Ok(VStr(Repeat(a.s, IntOf(b))))
    else if op == "*" && IsIntegral(a) && b.VStr? then Ok(VStr(Repeat(b.s, IntOf(a))))
    else Raise(TypeError)
  }

  function Apply(op: string, a: Val, b: Val): Result<Val>
    requires op in Operators
  {
    if op == "==" then Ok(VBool(Equal(a, b)))
    else if op == "!=" then Ok(VBool(!Equal(a, b)))
    else if op in {"<", "<=", ">", ">="} then Compare(op, a, b)
    else Arith(op, a, b)
  }

  /** `target.name`: only `STATE` and `EVENT` have one. */
  function NameOf(target: Node): Result<string> {
    match target
    case STATE(name) => Ok(name)
    case EVENT(name, _, _) => Ok(name)
    case _ => Raise(AttributeError("name"))
  }

  /**
   * `_eval(x)`: a `VALUE` gives its value; a `READ` the stored value of its
   * target, raising R2 for an undeclared name; a tuple applies its operator
   * to its two evaluated operands, left first (an unknown operator gives the
   * tuple back); a bare value gives itself, and any other node gives itself
   * as a value.
   */
  function Evaluate(state: map<string, Val>, x: Node): Result<Val> {
    match x
    case VALUE(v) => Ok(v)
    case READ(target) =>
      var name :- NameOf(target);
      if name !in state then Raise(Fail("READ vide: " + name, "R2")) else Ok(state[name])
    case Expr(op, a, b) =>
      var av :- Evaluate(state, a);
      var bv :- Evaluate(state, b);
      if op in Operators then Apply(op, av, bv) else Ok(VNode(x))
    case Lit(v) => Ok(v)
    case _ => Ok(VNode(x))
  }

  /** `[_eval(a) for a in args]`, the first raise winning. */
  function EvaluateAll(state: map<string, Val>, args: seq<Node>): (r: Result<seq<Val>>)
    ensures r.Ok? ==> |r.value| == |args|
  {
    if |args| == 0 then Ok([])
    else
      var v :- Evaluate(state, args[0]);
      var vs :- EvaluateAll(state, args[1..]);
      Ok([v] + vs)
  }

  // ----- execution --------------------------------------------------------

  /**
   * `_exec(node)` on machine `m`. Lists and `FLOW` run their steps in order
   * and give the last result; `TIME` refuses to go back (R8); `STATE`
   * declares a name as `None` unless it exists; `WRITE` stores the evaluated
   * value; `READ` gives `VALUE(v)`; `COND` gives the truth of its
   * expression; `CALL` raises R4 for an unknown function or a failing
   * callee; anything outside the executable alphabet raises R10. A raise
   * keeps the changes made before it.
   */
  function Execute(calls: Registry, m: Machine, n: Node): (o: Outcome)
    decreases Size(n), 1, 0
  {
    match n
    case Items(ns) => ExecuteAll(calls, m, ns, VNone)
    case TIME(t) =>
      if t < m.time then Outcome(Raise(Fail("TIME désordonné: " + Text.IntToString(t) + " < " + Text.IntToString(m.time), "R8")), m)
      else Outcome(Ok(VNone), Ticked(m.(time := t), "TIME"))
    case EVENT(_, _, _) => Outcome(Ok(VNone), Ticked(m, "EVENT"))
    case STATE(name) =>
      var declared := if name in m.state then m else m.(state := m.state[name := VNone]);
      Outcome(Ok(VNone), Ticked(declared, "STATE"))
    case WRITE(target, value) =>
      var v := Evaluate(m.state, value);
      if v.Raise? then Outcome(Raise(v.error), m)
      else
        var name := NameOf(target);
        if name.Raise? then Outcome(Raise(name.error), m)
        else Outcome(Ok(VNone), Ticked(m.(state := m.state[name.value := v.value]), "WRITE"))
    case READ(_) =>
      var v := Evaluate(m.state, n);
      if v.Raise? then Outcome(Raise(v.error), m)
      else Outcome(Ok(VNode(VALUE(v.value))), Ticked(m, "READ"))
    case FLOW(steps) => ExecuteAll(calls, m, steps, VNone)
    case COND(expr) =>
      var v := Evaluate(m.state, expr);
      if v.Raise? then Outcome(Raise(v.error), m)
      else Outcome(Ok(VBool(Truthy(v.value))), Ticked(m, "COND"))
    case LOOP(cond, body, maxIters) =>
      if maxIters.None? then Outcome(Raise(TypeError), m)
      else Iterate(calls, m, cond, body, maxIters.value, 0)
    case CALL(fn, args) =>
      if fn !in calls then Outcome(Raise(Fail("CALL inconnu: " + fn, "R4")), m)
      else
        var vs := EvaluateAll(m.state, args);
        if vs.Raise? then Outcome(Raise(vs.error), m)
        else
          var m1 := Ticked(m, "CALL");
          var ret := calls[fn](vs.value);
          if ret.Raise? then Outcome(Raise(Fail("CALL error", "R4")), m1)
          else Outcome(Ok(VNode(RETURN(VNode(VALUE(ret.value))))), m1)
    case RETURN(value) => Outcome(Ok(value), Ticked(m, "RETURN"))
    case _ => Outcome(Raise(Fail("Hors-alphabet: " + ClassName(n), "R10")), m)
  }

  /** The steps of a list or `FLOW` from `ns`, `out` being the result so far. */
  function ExecuteAll(calls: Registry, m: Machine, ns: seq<Node>, out: Val): (o: Outcome)
    decreases SizeAll(ns), 2, 0
  {
    if |ns| == 0 then Outcome(Ok(out), m)
    else
      var o := Execute(calls, m, ns[0]);
      if o.result.Raise? then o else ExecuteAll(calls, o.after, ns[1..], o.result.value)
  }

  /**
   * The `while True` of a `LOOP` after `it` passes: R6 once `it` reaches the
   * bound, before the condition is run again; otherwise run the condition,
   * leave with one `LOOP` tick when it is false, else run the body and go round.
   */
  function Iterate(calls: Registry, m: Machine, cond: Node, body: seq<Node>, maxIters: int, it: int): (o: Outcome)
    decreases 1 + Size(cond) + SizeAll(body), 0, if it < maxIters then maxIters - it else 0
  {
    if it >= maxIters then Outcome(Raise(Fail("LOOP sans sortie (max_iters atteint)", "R6")), m)
    else
      var c := Execute(calls, m, cond);
      if c.result.Raise? then c
      else if !Truthy(c.result.value) then Outcome(Ok(VNone), Ticked(c.after, "LOOP"))
      else
        var b := ExecuteAll(calls, c.after, body, VNone);
        if b.result.Raise? then b else Iterate(calls, b.after, cond, body, maxIters, it + 1)
  }

  /** The error code of a raised `ERROR`, or none. */
  function CodeOf(r: Result<Val>): Option<string> {
    if r.Raise? && r.error.IrError? then Some(r.error.code) else None
  }

  // ----- properties of the specification ------------------------------------

  /**
   * How a run may leave a machine: the clock has not gone back, every
   * declared name is still declared, and the log has only grown, by one
   * entry per step, numbered on from the step counter.
   */
  predicate Extends(m: Machine, m': Machine) {
    && m.time <= m'.time
    && m.state.Keys <= m'.state.Keys
    && |m.log| <= |m'.log| && m'.log[..|m.log|] == m.log
    && m'.step - m.step == |m'.log| - |m.log|
    && (forall i :: |m.log| <= i < |m'.log| ==> m'.log[i].step == m.step + 1 + (i - |m.log|))
  }

  lemma ExtendsTrans(m1: Machine, m2: Machine, m3: Machine)
    requires Extends(m1, m2) && Extends(m2, m3)
    ensures Extends(m1, m3)
  {
    assert m3.log[..|m2.log|][..|m1.log|] == m3.log[..|m1.log|];
    forall i | |m1.log| <= i < |m3.log|
      ensures m3.log[i].step == m1.step + 1 + (i - |m1.log|)
    {
      if i < |m2.log| {
        assert m3.log[i] == m3.log[..|m2.log|][i];
      }
    }
  }

  lemma TickedExtends(m: Machine, node: string)
    ensures Extends(m, Ticked(m, node))
  {
    assert Ticked(m, node).log[..|m.log|] == m.log;
  }

  /** Every run extends the machine it starts from, whether it returns or raises. */
  lemma {:induction false} ExecuteExtends(calls: Registry, m: Machine, n: Node)
    ensures Extends(m, Execute(calls, m, n).after)
    decreases Size(n), 1, 0
  {
    match n
    case Items(ns) => ExecuteAllExtends(calls, m, ns, VNone);
    case FLOW(steps) => ExecuteAllExtends(calls, m, steps, VNone);
    case LOOP(cond, body, maxIters) =>
      if maxIters.Some? {
        IterateExtends(calls, m, cond, body, maxIters.value, 0);
      }
    case _ => StepExtends(calls, m, n);
  }

  /** A node that runs no other node logs at most itself. */
  lemma StepExtends(calls: Registry, m: Machine, n: Node)
    requires !n.Items? && !n.FLOW? && !n.LOOP?
    ensures Extends(m, Execute(calls, m, n).after)
  {
    var after := Execute(calls, m, n).after;
    match n
    case TIME(t) =>
      if t >= m.time {
        TickedExtends(m.(time := t), "TIME");
      } else {
        assert after == m;
      }
    case STATE(name) =>
      var declared := if name in m.state then m else m.(state := m.state[name := VNone]);
      TickedExtends(declared, "STATE");
    case WRITE(target, value) =>
      var v := Evaluate(m.state, value);
      var name := NameOf(target);
      if v.Ok? && name.Ok? {
        TickedExtends(m.(state := m.state[name.value := v.value]), "WRITE");
      } else {
        assert after == m;
      }
    case _ => LeafExtends(calls, m, n);
  }

  /** The nodes that at most log themselves, leaving the state and the clock alone. */
  lemma LeafExtends(calls: Registry, m: Machine, n: Node)
    requires !n.Items? && !n.FLOW? && !n.LOOP? && !n.TIME? && !n.STATE? && !n.WRITE?
    ensures Extends(m, Execute(calls, m, n).after)
  {
    var after := Execute(calls, m, n).after;
    assert after == m || after == Ticked(m, ClassName(n));
    TickedExtends(m, ClassName(n));
  }

  lemma {:induction false} ExecuteAllExtends(calls: Registry, m: Machine, ns: seq<Node>, out: Val)
    ensures Extends(m, ExecuteAll(calls, m, ns, out).after)
    decreases SizeAll(ns), 2, 0
  {
    if |ns| > 0 {
      var o := Execute(calls, m, ns[0]);
      ExecuteExtends(calls, m, ns[0]);
      if o.result.Ok? {
        ExecuteAllExtends(calls, o.after, ns[1..], o.result.value);
        ExtendsTrans(m, o.after, ExecuteAll(calls, o.after, ns[1..], o.result.value).after);
      }
    }
  }

  lemma {:induction false} IterateExtends(calls: Registry, m: Machine, cond: Node, body: seq<Node>, maxIters: int, it: int)
    ensures Extends(m, Iterate(calls, m, cond, body, maxIters, it).after)
    decreases 1 + Size(cond) + SizeAll(body), 0, if it < maxIters then maxIters - it else 0
  {
    if it < maxIters {
      var c := Execute(calls, m, cond);
      ExecuteExtends(calls, m, cond);
      if c.result.Ok? {
        if !Truthy(c.result.value) {
          TickedExtends(c.after, "LOOP");
          ExtendsTrans(m, c.after, Ticked(c.after, "LOOP"));
        } else {
          var b := ExecuteAll(calls, c.after, body, VNone);
          ExecuteAllExtends(calls, c.after, body, VNone);
          ExtendsTrans(m, c.after, b.after);
          if b.result.Ok? {
            IterateExtends(calls, b.after, cond, body, maxIters, it + 1);
            ExtendsTrans(m, b.after, Iterate(calls, b.after, cond, body, maxIters, it + 1).after);
          }
        }
      }
    }
  }

  /** The log of `m` is numbered 1, 2, 3, ... and the step counter is its length. */
  predicate Numbered(m: Machine) {
    m.step == |m.log| && forall i :: 0 <= i < |m.log| ==> m.log[i].step == i + 1
  }

  /**
   * The clock never goes back, and a sandbox whose log is numbered
   * consecutively keeps it so: every logged step is the previous one plus one.
   */
  lemma RunKeepsClockAndNumbering(calls: Registry, m: Machine, n: Node)
    ensures Execute(calls, m, n).after.time >= m.time
    ensures Numbered(m) ==> Numbered(Execute(calls, m, n).after)
    ensures m.state.Keys <= Execute(calls, m, n).after.state.Keys
  {
    ExecuteExtends(calls, m, n);
    var m' := Execute(calls, m, n).after;
    if Numbered(m) {
      forall i | 0 <= i < |m'.log|
        ensures m'.log[i].step == i + 1
      {
        if i < |m.log| {
          assert m'.log[i] == m'.log[..|m.log|][i];
        }
      }
    }
  }

  /** A fresh sandbox is numbered, so every run from one numbers its log 1, 2, 3, ... */
  lemma FreshIsNumbered()
    ensures Numbered(Fresh)
  {
  }

  /** `READ` of an undeclared name raises R2 and changes nothing; of a declared one, gives its value and logs one step. */
  lemma ReadUndeclaredRaisesR2(calls: Registry, m: Machine, name: string)
    ensures var o := Execute(calls, m, READ(STATE(name)));
            && (name !in m.state <==> CodeOf(o.result) == Some("R2"))
            && (name !in m.state ==> o.after == m)
            && (name in m.state ==> o.result == Ok(VNode(VALUE(m.state[name]))) && o.after == Ticked(m, "READ"))
  {
  }

  /** The program `[READ(STATE("x"))]` on a new sandbox raises R2. */
  lemma ReadOfEmptySandbox(calls: Registry)
    ensures CodeOf(Execute(calls, Fresh, Items([READ(STATE("x"))])).result) == Some("R2")
  {
    assert Execute(calls, Fresh, READ(STATE("x"))).result.Raise?;
  }

  /** `TIME(t)` raises R8 exactly when `t` is before the clock, and otherwise sets the clock to `t`. */
  lemma TimeIsOrdered(calls: Registry, m: Machine, t: int)
    ensures var o := Execute(calls, m, TIME(t));
            && (t < m.time <==> CodeOf(o.result) == Some("R8"))
            && (t < m.time ==> o.after == m)
            && (t >= m.time ==> o.result == Ok(VNone) && o.after.time == t && o.after.state == m.state)
  {
  }

  /** `[TIME(10), TIME(9)]` on a new sandbox raises R8 after moving the clock to 10. */
  lemma TimeGoingBackRaises(calls: Registry)
    ensures var o := Execute(calls, Fresh, Items([TIME(10), TIME(9)]));
            CodeOf(o.result) == Some("R8") && o.after.time == 10
  {
    var m1 := Execute(calls, Fresh, TIME(10)).after;
    assert m1.time == 10;
    assert [TIME(10), TIME(9)][1..] == [TIME(9)];
    assert Execute(calls, m1, TIME(9)).result.Raise?;
  }

  /** `STATE(name)` never overwrites: a declared name keeps its value, a new one is declared as `None`. */
  lemma StateNeverOverwrites(calls: Registry, m: Machine, name: string)
    ensures var o := Execute(calls, m, STATE(name));
            && o.result == Ok(VNone)
            && (name in m.state ==> o.after.state == m.state)
            && (name !in m.state ==> o.after.state == m.state[name := VNone])
  {
  }

  /**
   * `WRITE(STATE(name), value)` succeeds exactly when `value` evaluates, and
   * then changes the named entry and no other.
   */
  lemma WriteChangesOnlyItsName(calls: Registry, m: Machine, name: string, value: Node)
    ensures var o := Execute(calls, m, WRITE(STATE(name), value));
            && (o.result.Ok? <==> Evaluate(m.state, value).Ok?)
            && (o.result.Ok? ==> o.after.state[name] == Evaluate(m.state, value).value
                                 && (forall k :: k in m.state && k != name ==> k in o.after.state && o.after.state[k] == m.state[k])
                                 && o.after.state.Keys == m.state.Keys + {name})
            && (o.result.Raise? ==> o.after == m)
  {
  }

  /** Calling an unregistered function raises R4 before anything is logged; a callee that raises gives R4 too. */
  lemma CallFailuresRaiseR4(calls: Registry, m: Machine, fn: string, args: seq<Node>)
    ensures fn !in calls ==> Execute(calls, m, CALL(fn, args)) == Outcome(Raise(Fail("CALL inconnu: " + fn, "R4")), m)
    ensures fn in calls && EvaluateAll(m.state, args).Ok? && calls[fn](EvaluateAll(m.state, args).value).Raise? ==>
              CodeOf(Execute(calls, m, CALL(fn, args)).result) == Some("R4")
    ensures fn in calls && EvaluateAll(m.state, args).Ok? && calls[fn](EvaluateAll(m.state, args).value).Ok? ==>
              Execute(calls, m, CALL(fn, args)).result
              == Ok(VNode(RETURN(VNode(VALUE(calls[fn](EvaluateAll(m.state, args).value).value)))))
  {
  }

  /** `VALUE`, a tuple and a bare value are not executable: each raises R10 and changes nothing. */
  lemma NonExecutableRaisesR10(calls: Registry, m: Machine, n: Node)
    requires n.VALUE? || n.Expr? || n.Lit?
    ensures Execute(calls, m, n).after == m
    ensures CodeOf(Execute(calls, m, n).result) == Some("R10")
  {
  }

  /** Integer addition in a tuple expression is exact. */
  lemma AdditionIsExact(state: map<string, Val>, a: int, b: int)
    ensures Evaluate(state, Expr("+", VALUE(VInt(a)), VALUE(VInt(b)))) == Ok(VInt(a + b))
  {
  }

  /** `[STATE("x"), WRITE(STATE("x"), ("+", VALUE(a), VALUE(b)))]` leaves `x == a + b`. */
  lemma StoredSumIsExact(calls: Registry, a: int, b: int)
    ensures var o := Execute(calls, Fresh, Items([STATE("x"), WRITE(STATE("x"), Expr("+", VALUE(VInt(a)), VALUE(VInt(b))))]));
            o.result == Ok(VNone) && "x" in o.after.state && o.after.state["x"] == VInt(a + b)
  {
    var prog := [STATE("x"), WRITE(STATE("x"), Expr("+", VALUE(VInt(a)), VALUE(VInt(b))))];
    var m1 := Execute(calls, Fresh, prog[0]).after;
    assert ExecuteAll(calls, Fresh, prog, VNone) == ExecuteAll(calls, m1, prog[1..], VNone);
    AdditionIsExact(m1.state, a, b);
    var o2 := Execute(calls, m1, prog[1]);
    assert o2.result == Ok(VNone) && o2.after.state["x"] == VInt(a + b);
    assert prog[1..][1..] == [];
    assert ExecuteAll(calls, m1, prog[1..], VNone) == ExecuteAll(calls, o2.after, [], VNone);
  }

  /** Dividing by zero raises `ZeroDivisionError`, by an integer zero or a float one. */
  lemma DivisionByZeroRaises(state: map<string, Val>, a: Val, zero: Val)
    requires IsNumber(a) && IsNumber(zero) && Num(zero) == 0.0
    ensures Evaluate(state, Expr("/", Lit(a), Lit(zero))) == Raise(ZeroDivisionError)
  {
  }

  /**
   * A list gives the result of its last step: running `ns + [n]` is running
   * `ns` and then, unless that raised, `n` on the machine it left.
   */
  lemma {:induction false} LastStepGivesResult(calls: Registry, m: Machine, ns: seq<Node>, n: Node, out: Val)
    ensures ExecuteAll(calls, m, ns + [n], out)
            == (var o := ExecuteAll(calls, m, ns, out); if o.result.Raise? then o else Execute(calls, o.after, n))
    decreases |ns|
  {
    if |ns| == 0 {
      assert ns + [n] == [n];
      assert [n][1..] == [];
    } else {
      assert (ns + [n])[0] == ns[0];
      assert (ns + [n])[1..] == ns[1..] + [n];
      var o := Execute(calls, m, ns[0]);
      if o.result.Ok? {
        LastStepGivesResult(calls, o.after, ns[1..], n, o.result.value);
      }
    }
  }

  /** A bound of zero or less raises R6 before the condition is run even once. */
  lemma NonPositiveBoundRaisesR6(calls: Registry, m: Machine, cond: Node, body: seq<Node>, k: int)
    requires k <= 0
    ensures Execute(calls, m, LOOP(cond, body, Some(k))) == Outcome(Raise(Fail("LOOP sans sortie (max_iters atteint)", "R6")), m)
  {
  }

  /** A missing bound makes the comparison `it >= None` raise `TypeError`. */
  lemma MissingBoundRaises(calls: Registry, m: Machine, cond: Node, body: seq<Node>)
    ensures Execute(calls, m, LOOP(cond, body, None)) == Outcome(Raise(TypeError), m)
  {
  }

  /**
   * A loop whose condition is always true and whose body is empty tests the
   * condition exactly `maxIters - it` more times (one `COND` step each) and
   * then raises R6: the bound is never exceeded.
   */
  lemma {:induction false} AlwaysTrueLoopStopsAtBound(calls: Registry, m: Machine, maxIters: int, it: int)
    requires 0 <= it <= maxIters
    ensures var o := Iterate(calls, m, COND(VALUE(VBool(true))), [], maxIters, it);
            && CodeOf(o.result) == Some("R6")
            && |o.after.log| == |m.log| + (maxIters - it)
            && (forall i :: |m.log| <= i < |o.after.log| ==> o.after.log[i].node == "COND")
            && o.after.state == m.state
    decreases maxIters - it
  {
    if it < maxIters {
      var m1 := Ticked(m, "COND");
      assert Execute(calls, m, COND(VALUE(VBool(true)))) == Outcome(Ok(VBool(true)), m1);
      assert ExecuteAll(calls, m1, [], VNone) == Outcome(Ok(VNone), m1);
      AlwaysTrueLoopStopsAtBound(calls, m1, maxIters, it + 1);
      var o := Iterate(calls, m1, COND(VALUE(VBool(true))), [], maxIters, it + 1);
      assert Iterate(calls, m, COND(VALUE(VBool(true))), [], maxIters, it) == o;
      forall i | |m.log| <= i < |o.after.log|
        ensures o.after.log[i].node == "COND"
      {
        if i == |m.log| {
          ExecuteExtends(calls, m, COND(VALUE(VBool(true))));
          IterateExtends(calls, m1, COND(VALUE(VBool(true))), [], maxIters, it + 1);
          assert o.after.log[..|m1.log|] == m1.log;
          assert o.after.log[i] == m1.log[i];
        }
      }
    }
  }

  // ----- the counting loop ------------------------------------------------

  /** `x < 3`, the condition of the counting loop. */
  const Below3: Node := COND(Expr("<", READ(STATE("x")), VALUE(VInt(3))))

  /** `x = x + 1`, its body. */
  const Increment: seq<Node> := [WRITE(STATE("x"), Expr("+", READ(STATE("x")), VALUE(VInt(1))))]

  /** `x = 0; while x < 3: x = x + 1`, with the loop bounded by `bound`. */
  function CountingProgram(bound: int): Node {
    Items([STATE("x"), WRITE(STATE("x"), VALUE(VInt(0))), LOOP(Below3, Increment, Some(bound))])
  }

  /** The test `x < 3` when `x == k`. */
  lemma BelowThreeHolds(m: Machine, k: int)
    requires "x" in m.state && m.state["x"] == VInt(k)
    ensures Evaluate(m.state, Below3.expr) == Ok(VBool(k < 3))
  {
    assert Evaluate(m.state, READ(STATE("x"))) == Ok(VInt(k));
    assert Evaluate(m.state, VALUE(VInt(3))) == Ok(VInt(3));
    assert Apply("<", VInt(k), VInt(3)) == Ok(VBool(k < 3));
  }

  /** One pass of the counting loop from `x == k < 3`: the condition holds and the body leaves `x == k + 1`. */
  lemma CountingPass(calls: Registry, m: Machine, k: int)
    requires "x" in m.state && m.state["x"] == VInt(k) && k < 3
    ensures var c := Execute(calls, m, Below3);
            && c.result == Ok(VBool(true))
            && var b := ExecuteAll(calls, c.after, Increment, VNone);
               b.result == Ok(VNone) && "x" in b.after.state && b.after.state["x"] == VInt(k + 1)
  {
    BelowThreeHolds(m, k);
    var c := Execute(calls, m, Below3);
    assert c.after == Ticked(m, "COND");
    var e := Expr("+", READ(STATE("x")), VALUE(VInt(1)));
    assert Evaluate(c.after.state, READ(STATE("x"))) == Ok(VInt(k));
    assert Apply("+", VInt(k), VInt(1)) == Ok(VInt(k + 1));
    assert Evaluate(c.after.state, e) == Ok(VInt(k + 1));
    assert Increment[1..] == [];
  }

  /**
   * From `x == k`, with `it` passes already made, the counting loop either
   * stops with `x == 3` (when the bound leaves room for the final test) or
   * raises R6.
   */
  lemma {:induction false} CountingLoopFrom(calls: Registry, m: Machine, k: int, bound: int, it: int)
    requires "x" in m.state && m.state["x"] == VInt(k) && 0 <= k <= 3 && 0 <= it
    ensures var o := Iterate(calls, m, Below3, Increment, bound, it);
            && (it + (3 - k) < bound ==> o.result == Ok(VNone) && "x" in o.after.state && o.after.state["x"] == VInt(3))
            && (it + (3 - k) >= bound ==> CodeOf(o.result) == Some("R6"))
    decreases 3 - k
  {
    if it >= bound {
      IterateAtBound(calls, m, Below3, Increment, bound, it);
    } else if k < 3 {
      var m' := CountingStep(calls, m, k, bound, it);
      CountingLoopFrom(calls, m', k + 1, bound, it + 1);
    } else {
      CountingExit(calls, m, bound, it);
    }
  }

  /** Below the bound, from `x == k < 3`, the counting loop makes one pass and goes round with `x == k + 1`. */
  lemma CountingStep(calls: Registry, m: Machine, k: int, bound: int, it: int) returns (m': Machine)
    requires "x" in m.state && m.state["x"] == VInt(k) && k < 3 && it < bound
    ensures "x" in m'.state && m'.state["x"] == VInt(k + 1)
    ensures Iterate(calls, m, Below3, Increment, bound, it) == Iterate(calls, m', Below3, Increment, bound, it + 1)
  {
    CountingPass(calls, m, k);
    IteratePass(calls, m, Below3, Increment, bound, it);
    m' := ExecuteAll(calls, Execute(calls, m, Below3).after, Increment, VNone).after;
  }

  /** Below the bound, with `x == 3` the counting loop ends with `None` and leaves `x` at 3. */
  lemma CountingExit(calls: Registry, m: Machine, bound: int, it: int)
    requires "x" in m.state && m.state["x"] == VInt(3) && it < bound
    ensures var o := Iterate(calls, m, Below3, Increment, bound, it);
            o.result == Ok(VNone) && "x" in o.after.state && o.after.state["x"] == VInt(3)
  {
    BelowThreeHolds(m, 3);
    IterateExit(calls, m, Below3, Increment, bound, it);
  }

  /** At its bound a loop raises R6 without running its condition again. */
  lemma IterateAtBound(calls: Registry, m: Machine, cond: Node, body: seq<Node>, maxIters: int, it: int)
    requires it >= maxIters
    ensures CodeOf(Iterate(calls, m, cond, body, maxIters, it).result) == Some("R6")
  {
  }

  /** Below its bound, a true condition and a body that does not raise make one pass. */
  lemma IteratePass(calls: Registry, m: Machine, cond: Node, body: seq<Node>, maxIters: int, it: int)
    requires it < maxIters
    requires Execute(calls, m, cond).result == Ok(VBool(true))
    requires ExecuteAll(calls, Execute(calls, m, cond).after, body, VNone).result.Ok?
    ensures Iterate(calls, m, cond, body, maxIters, it)
         == Iterate(calls, ExecuteAll(calls, Execute(calls, m, cond).after, body, VNone).after, cond, body, maxIters, it + 1)
  {
  }

  /** Below its bound, a false condition ends the loop with `None`. */
  lemma IterateExit(calls: Registry, m: Machine, cond: Node, body: seq<Node>, maxIters: int, it: int)
    requires it < maxIters
    requires Execute(calls, m, cond).result == Ok(VBool(false))
    ensures Iterate(calls, m, cond, body, maxIters, it).result == Ok(VNone)
    ensures Iterate(calls, m, cond, body, maxIters, it).after.state == Execute(calls, m, cond).after.state
  {
  }

  /**
   * The counting loop ends with `x == 3` when the bound exceeds the three
   * passes it needs (10, say), and raises R6 when the bound is exactly 3: a
   * loop that needs exactly `max_iters` body runs is stopped before its
   * final test.
   */
  lemma CountingLoopResult(calls: Registry, bound: int)
    ensures var o := Execute(calls, Fresh, CountingProgram(bound));
            && (bound > 3 ==> o.result == Ok(VNone) && "x" in o.after.state && o.after.state["x"] == VInt(3))
            && (bound <= 3 ==> CodeOf(o.result) == Some("R6"))
  {
    var m := CountingSetup(calls, bound);
    CountingLoopFrom(calls, m, 0, bound, 0);
  }

  /** The two statements before the loop declare `x` and set it to 0; then the loop runs from no pass. */
  lemma CountingSetup(calls: Registry, bound: int) returns (m: Machine)
    ensures "x" in m.state && m.state["x"] == VInt(0)
    ensures Execute(calls, Fresh, CountingProgram(bound)) == Iterate(calls, m, Below3, Increment, bound, 0)
  {
    var steps := [STATE("x"), WRITE(STATE("x"), VALUE(VInt(0))), LOOP(Below3, Increment, Some(bound))];
    var first := Execute(calls, Fresh, steps[0]);
    assert first.result == Ok(VNone);
    ExecuteAllStep(calls, Fresh, steps, VNone);
    var second := Execute(calls, first.after, steps[1]);
    assert Evaluate(first.after.state, VALUE(VInt(0))) == Ok(VInt(0));
    assert NameOf(STATE("x")) == Ok("x");
    assert second.result == Ok(VNone) && second.after.state["x"] == VInt(0);
    ExecuteAllStep(calls, first.after, steps[1..], VNone);
    assert steps[1..][1..] == [steps[2]];
    ExecuteSingleton(calls, second.after, steps[2], VNone);
    m := second.after;
  }

  /** A list of one node runs as the node itself. */
  lemma ExecuteSingleton(calls: Registry, m: Machine, n: Node, out: Val)
    ensures ExecuteAll(calls, m, [n], out) == Execute(calls, m, n)
  {
    assert [n][1..] == [];
  }

  /** A first step that does not raise hands its machine and result to the rest of the list. */
  lemma ExecuteAllStep(calls: Registry, m: Machine, ns: seq<Node>, out: Val)
    requires |ns| > 0 && Execute(calls, m, ns[0]).result.Ok?
    ensures ExecuteAll(calls, m, ns, out)
         == ExecuteAll(calls, Execute(calls, m, ns[0]).after, ns[1..], Execute(calls, m, ns[0]).result.value)
  {
  }

  // ----- the sandbox object -------------------------------------------------

  /** `Sandbox(call_registry)`, whose fields each run updates in place. */
  class Sandbox {
    var state: map<string, Val>
    var time: int
    var log: seq<ExecLog>
    var step: int
    const calls: Registry

    constructor (callRegistry: Registry)
      ensures Current() == Fresh && calls == callRegistry
    {
      state := map[];
      time := 0;
      log := [];
      step := 0;
      calls := callRegistry;
    }

    function Current(): Machine
      reads this
    {
      Machine(state, time, log, step)
    }

    /** `run(program)`. */
    method Run(program: Node) returns (r: Result<Val>)
      modifies this
      ensures Outcome(r, Current()) == Execute(calls, old(Current()), program)
    {
      r := Exec(program);
    }

    /** `_tick(node)`. */
    method Tick(node: string)
      modifies this
      ensures Current() == Ticked(old(Current()), node)
    {
      step := step + 1;
      log := log + [ExecLog(step, node)];
    }

    /** `_exec(node)`. */
    method Exec(n: Node) returns (r: Result<Val>)
      modifies this
      ensures Outcome(r, Current()) == Execute(calls, old(Current()), n)
      decreases Size(n), 1, 0
    {
      match n {
        case Items(ns) =>
          r := ExecSteps(ns);
        case FLOW(steps) =>
          r := ExecSteps(steps);
        case TIME(t) =>
          if t < time {
            return Raise(Fail("TIME désordonné: " + Text.IntToString(t) + " < " + Text.IntToString(time), "R8"));
          }
          time := t;
          Tick("TIME");
          r := Ok(VNone);
        case EVENT(_, _, _) =>
          Tick("EVENT");
          r := Ok(VNone);
        case STATE(name) =>
          if name !in state {
            state := state[name := VNone];
          }
          Tick("STATE");
          r := Ok(VNone);
        case WRITE(target, value) =>
          var v := Evaluate(state, value);
          if v.Raise? {
            return Raise(v.error);
          }
          var name := NameOf(target);
          if name.Raise? {
            return Raise(name.error);
          }
          state := state[name.value := v.value];
          Tick("WRITE");
          r := Ok(VNone);
        case READ(_) =>
          var v := Evaluate(state, n);
          if v.Raise? {
            return Raise(v.error);
          }
          Tick("READ");
          r := Ok(VNode(VALUE(v.value)));
        case COND(expr) =>
          var v := Evaluate(state, expr);
          if v.Raise? {
            return Raise(v.error);
          }
          Tick("COND");
          r := Ok(VBool(Truthy(v.value)));
        case LOOP(cond, body, maxIters) =>
          if maxIters.None? {
            return Raise(TypeError);
          }
          r := ExecLoop(cond, body, maxIters.value);
        case CALL(fn, args) =>
          if fn !in calls {
            return Raise(Fail("CALL inconnu: " + fn, "R4"));
          }
          var vs := EvaluateAll(state, args);
          if vs.Raise? {
            return Raise(vs.error);
          }
          Tick("CALL");
          var ret := calls[fn](vs.value);
          if ret.Raise? {
            return Raise(Fail("CALL error", "R4"));
          }
          r := Ok(VNode(RETURN(VNode(VALUE(ret.value)))));
        case RETURN(value) =>
          Tick("RETURN");
          r := Ok(value);
        case VALUE(_) =>
          r := Raise(Fail("Hors-alphabet: " + ClassName(n), "R10"));
        case Expr(_, _, _) =>
          r := Raise(Fail("Hors-alphabet: " + ClassName(n), "R10"));
        case Lit(_) =>
          r := Raise(Fail("Hors-alphabet: " + ClassName(n), "R10"));
      }
    }

    /** `for n in node: out = self._exec(n)`, returning the last result. */
    method ExecSteps(ns: seq<Node>) returns (r: Result<Val>)
      modifies this
      ensures Outcome(r, Current()) == ExecuteAll(calls, old(Current()), ns, VNone)
      decreases SizeAll(ns), 2, 0
    {
      var out := VNone;
      var i := 0;
      while i < |ns|
        invariant 0 <= i <= |ns|
        invariant ExecuteAll(calls, Current(), ns[i..], out) == ExecuteAll(calls, old(Current()), ns, VNone)
      {
        SizeAllBounds(ns, i);
        assert ns[i..][0] == ns[i] && ns[i..][1..] == ns[i + 1..];
        var x := Exec(ns[i]);
        if x.Raise? {
          return x;
        }
        out := x.value;
        i := i + 1;
      }
      r := Ok(out);
    }

    /** The `while True` loop of a `LOOP`, counting passes in `it`. */
    method ExecLoop(cond: Node, body: seq<Node>, maxIters: int) returns (r: Result<Val>)
      modifies this
      ensures Outcome(r, Current()) == Iterate(calls, old(Current()), cond, body, maxIters, 0)
      decreases 1 + Size(cond) + SizeAll(body), 0, 0
    {
      var it := 0;
      while true
        invariant 0 <= it
        invariant Iterate(calls, Current(), cond, body, maxIters, it) == Iterate(calls, old(Current()), cond, body, maxIters, 0)
        decreases if it < maxIters then maxIters - it else 0
      {
        if it >= maxIters {
          return Raise(Fail("LOOP sans sortie (max_iters atteint)", "R6"));
        }
        var c := Exec(cond);
        if c.Raise? {
          return c;
        }
        if !Truthy(c.value) {
          Tick("LOOP");
          return Ok(VNone);
        }
        var b := ExecSteps(body);
        if b.Raise? {
          return b;
        }
        it := it + 1;
      }
    }
  }
}
