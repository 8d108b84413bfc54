/**
 * The OS1 request pipeline: parse, check the contract, consult the X-108
 * gate, run the program in an OS0 sandbox, and explain the decision in a
 * short report (the SSR). Parsing is an input: the parser's dict, or the
 * exception it raised.
 */
module Os1 {
  import opened Wrappers
  import opened Ir
  import Sandbox
  import Contract
  import X108
  import Values

  datatype Verdict = ACT | HOLD | REJECT

  /** One row of the exported log: the step number and the operation name. */
  datatype LogRow = LogRow(step: int, op: Option<string>)

  /**
   * What the sandbox run gives back: the record of the final state and log
   * when the program returns `None`, and the returned value otherwise.
   */
  datatype Os0Result = Record(ok: bool, state: map<string, Val>, log: seq<LogRow>) | Returned(out: Val)

  datatype OS1Decision = OS1Decision(
    decision: Verdict,
    ssr: string,
    contractOk: bool,
    x108: Option<X108.X108Check>,
    os0Result: Option<Os0Result>)

  /**
   * The text renderings the report uses and the model does not compute:
   * `str` of a float, of a value and of a check's reason, and the message of
   * an exception.
   */
  datatype Printer = Printer(
    float: real -> string,
    value: Val -> string,
    reason: X108.Reason -> string,
    message: Exception -> string)

  /** A sandbox passed in by the caller: its registry and its current fields. */
  datatype SandboxArg = SandboxArg(calls: Sandbox.Registry, machine: Sandbox.Machine)

  /** `type(e).__name__`. */
  function ExceptionName(e: Exception): string {
    match e
    case KeyError(_) => "KeyError"
    case TypeError => "TypeError"
    case ValueError => "ValueError"
    case ZeroDivisionError => "ZeroDivisionError"
    case AttributeError(_) => "AttributeError"
    case IrError(_, _) => "ERROR"
  }

  function PyBool(b: bool): string {
    if b then "True" else "False"
  }

  /** `ir.get("program", ir)`: the program entry, or the parser's dict itself. */
  function ProgramOf(ir: map<string, Val>): Node {
    if "program" in ir then
      var v := ir["program"];
      if v.VNode? then v.n else Lit(v)
    else Lit(VDict(ir))
  }

  /** `d.get(key)` on a value that must be a dict, `AttributeError` otherwise. */
  function GetFrom(d: Val, key: string): (r: Result<Val>)
    ensures r.Raise? <==> !d.VDict?
    ensures d.VDict? ==> r == Ok(if key in d.entries then d.entries[key] else VNone)
  {
    if !d.VDict? then Raise(AttributeError("get"))
    else if key in d.entries then Ok(d.entries[key])
    else Ok(VNone)
  }

  /** The `ir.type` line's value: the intent from the metadata, else the `type` of a leading dict in a list program. */
  function IrType(meta: Val, program: Node): Result<Val> {
    var intent :- GetFrom(meta, "intent");
    if !Sandbox.Truthy(intent) && program.Items? && |program.items| > 0 then
      var first := program.items[0];
      if first.Lit? && first.v.VDict? then GetFrom(first.v, "type") else Ok(VNone)
    else Ok(intent)
  }

  // ----- the exported log, as written and as intended ---------------------------

  /** The log rows as the source builds them: `getattr(l, "op", None)` on an entry that has no `op` field. */
  function RowsAsWritten(log: seq<Sandbox.ExecLog>): (rows: seq<LogRow>)
    ensures |rows| == |log|
    ensures forall i :: 0 <= i < |log| ==> rows[i] == LogRow(log[i].step, None)
  {
    seq(|log|, i requires 0 <= i < |log| => LogRow(log[i].step, None))
  }

  /** The log rows with the operation each entry records. */
  function Rows(log: seq<Sandbox.ExecLog>): (rows: seq<LogRow>)
    ensures |rows| == |log|
    ensures forall i :: 0 <= i < |log| ==> rows[i] == LogRow(log[i].step, Some(log[i].node))
  {
    seq(|log|, i requires 0 <= i < |log| => LogRow(log[i].step, Some(log[i].node)))
  }

  /**
   * As written, the `op` of every exported row is `None`, so the exported
   * log loses which node made each step: after `[STATE("x")]` on a new
   * sandbox the only entry was made by a `STATE`, yet its row says nothing.
   */
  lemma RowsAsWrittenLoseTheOperation(calls: Sandbox.Registry)
    ensures var log := Sandbox.Execute(calls, Sandbox.Fresh, Items([STATE("x")])).after.log;
            && |log| == 1 && log[0].node == "STATE"
            && RowsAsWritten(log) == [LogRow(1, None)]
            && Rows(log) == [LogRow(1, Some("STATE"))]
  {
    assert [STATE("x")][1..] == [];
  }

  /** With the operation kept, every row names the node class of its entry and keeps its number. */
  lemma RowsKeepTheLog(log: seq<Sandbox.ExecLog>)
    ensures forall i :: 0 <= i < |log| ==> Rows(log)[i].op == Some(log[i].node) && Rows(log)[i].step == log[i].step
    ensures forall i, j :: 0 <= i < |log| && 0 <= j < |log| && Rows(log)[i] == Rows(log)[j] ==> log[i] == log[j]
  {
  }

  // ----- the status line, as written and as intended -----------------------------

  /**
   * Which report the pipeline builds: the one the code builds, or the one
   * with the exported log and the status line corrected.
   */
  datatype Reading = AsWritten | Intended

  /** The exported log rows of a reading. */
  function RowsIn(log: seq<Sandbox.ExecLog>, reading: Reading): seq<LogRow> {
    if reading.Intended? then Rows(log) else RowsAsWritten(log)
  }

  /** The result of `sb.run(program)` after the `None` check. */
  function Os0Of(out: Val, after: Sandbox.Machine, reading: Reading): Os0Result {
    if out == VNone then Record(true, after.state, RowsIn(after.log, reading)) else Returned(out)
  }

  /**
   * `os0_out.get('status')` as written: the record has no status, a returned
   * dict may have one, and any other returned value has no `get`, so the
   * report raises `AttributeError` after the sandbox run succeeded.
   */
  function StatusAsWritten(os0: Os0Result): (r: Result<Val>)
    ensures r.Raise? <==> os0.Returned? && !os0.out.VDict?
  {
    if os0.Record? then Ok(VNone) else GetFrom(os0.out, "status")
  }

  /** The status with non-dict results reported as having none. */
  function Status(os0: Os0Result): (r: Val)
    ensures StatusAsWritten(os0).Ok? ==> r == StatusAsWritten(os0).value
    ensures os0.Returned? && !os0.out.VDict? ==> r == VNone
  {
    if os0.Returned? && os0.out.VDict? && "status" in os0.out.entries then os0.out.entries["status"] else VNone
  }

  /** The status line of a reading: the one that may raise, or the corrected one. */
  function StatusIn(os0: Os0Result, reading: Reading): (r: Result<Val>)
    ensures r.Raise? <==> reading.AsWritten? && os0.Returned? && !os0.out.VDict?
  {
    if reading.Intended? then Ok(Status(os0)) else StatusAsWritten(os0)
  }

  /**
   * As written, a program that ends in `RETURN(1)` (or in a `READ`, `COND` or
   * `CALL`) runs without error in the sandbox and then makes the report
   * raise; the intended status is simply absent.
   */
  lemma NonDictResultBreaksReport(calls: Sandbox.Registry)
    ensures var o := Sandbox.Execute(calls, Sandbox.Fresh, Items([RETURN(VInt(1))]));
            && o.result == Ok(VInt(1))
            && StatusAsWritten(Os0Of(o.result.value, o.after, AsWritten)) == Raise(AttributeError("get"))
            && Status(Os0Of(o.result.value, o.after, Intended)) == VNone
  {
    assert [RETURN(VInt(1))][1..] == [];
  }

  // ----- the pipeline --------------------------------------------------------------

  /** The SSR of an X-108 hold. */
  function HoldReport(check: X108.X108Check, elapsed: real, ist: real, cmec: real, irreversible: bool, p: Printer): string {
    "X108_HOLD\n"
    + "reason: " + p.reason(check.reason) + "\n"
    + "inputs: time_elapsed=" + p.float(elapsed) + ", IST=" + p.float(ist) + ", CMEC=" + p.float(cmec)
    + ", irreversible=" + PyBool(irreversible) + "\n"
    + "action: aucune exécution (OS0 non appelé)"
  }

  predicate StartsWith(s: string, prefix: string) {
    |prefix| <= |s| && s[..|prefix|] == prefix
  }

  /** The first three lines of an ACT report: the decision, the contract, and what X-108 said. */
  function Head(x108: Option<X108.X108Check>, p: Printer): string {
    "ACT\n" + "contract: OK\n"
    + (if x108.Some? then "x108: ACT (" + p.reason(x108.value.reason) + ")\n" else "x108: SKIP\n")
  }

  /** The SSR of an ACT: the head lines, then the IR's type and the sandbox's status. */
  function ActReport(x108: Option<X108.X108Check>, irType: Val, status: Val, p: Printer): (ssr: string)
    ensures StartsWith(ssr, Head(x108, p))
  {
    var head := Head(x108, p);
    var tail := "ir.type: " + p.value(irType) + "\n" + "os0.status: " + p.value(status) + "\n";
    assert (head + tail)[..|head|] == head;
    head + tail
  }

  /**
   * Steps 4 and 5: report on the sandbox's run `o` of the program. The IR's
   * type is read before the status, and neither read is guarded, so either
   * may raise after a successful run.
   */
  function Execution(program: Node, meta: Val, o: Sandbox.Outcome, x108: Option<X108.X108Check>, p: Printer,
                     reading: Reading): (r: Result<OS1Decision>)
    ensures && (o.result.Raise? ==> r.Ok? && r.value.decision == REJECT && r.value.os0Result.None?)
            && (o.result.Ok? ==>
                  (r.Ok? <==> (IrType(meta, program).Ok? && StatusIn(Os0Of(o.result.value, o.after, reading), reading).Ok?)))
            && (o.result.Ok? && IrType(meta, program).Ok? && !r.Ok? ==>
                  r == Raise(AttributeError("get")) && reading.AsWritten? && !o.result.value.VDict?)
            && (o.result.Ok? && r.Ok? ==> r.value.decision == ACT && r.value.os0Result == Some(Os0Of(o.result.value, o.after, reading)))
    ensures r.Ok? ==> r.value.contractOk && r.value.x108 == x108 && r.value.decision != HOLD
    ensures r.Ok? && r.value.decision == ACT ==> StartsWith(r.value.ssr, Head(x108, p))
  {
    if o.result.Raise? then
      var e := o.result.error;
      Ok(OS1Decision(REJECT, "REJECT\n" + "os0_error: " + ExceptionName(e) + ": " + p.message(e), true, x108, None))
    else
      var os0 := Os0Of(o.result.value, o.after, reading);
      var irType :- IrType(meta, program);
      var status :- StatusIn(os0, reading);
      Ok(OS1Decision(ACT, ActReport(x108, irType, status, p), true, x108, Some(os0)))
  }

  /** `x108_ctx or {}`. */
  function ContextOf(ctx: Option<Values.Dict>): Values.Dict {
    if ctx.Some? then ctx.value else map[]
  }

  /** What step 3 found: no gate, or the gate's check and the report of a hold. */
  datatype Consulted = Skipped | Checked(check: X108.X108Check, holdReport: string)

  /**
   * Step 3. The context is read tolerantly (irreversible by default, no time
   * elapsed, IST and CMEC under either spelling), each number through
   * `float()`, whose error is not caught.
   */
  function Consult(gate: Option<X108.X108Gate>, ctx: Option<Values.Dict>, p: Printer): (r: Result<Consulted>)
    ensures gate.None? <==> r == Ok(Skipped)
    ensures gate.Some? && ctx.None? ==>
              r.Ok? && r.value.Checked? && r.value.check == gate.value.Check(0.0, true, "IST=" + p.float(0.0) + " CMEC=" + p.float(0.0))
  {
    if gate.None? then Ok(Skipped)
    else
      var c := ContextOf(ctx);
      var irreversible := Values.Truthy(Values.Get(c, "irreversible", Values.VBool(true)));
      var elapsed :- Values.ToFloat(Values.Get(c, "time_elapsed", Values.VFloat(0.0)));
      var ist :- Values.ToFloat(Values.Get(c, "ist", Values.Get(c, "IST", Values.VFloat(0.0))));
      var cmec :- Values.ToFloat(Values.Get(c, "cmec", Values.Get(c, "CMEC", Values.VFloat(0.0))));
      var note := "IST=" + p.float(ist) + " CMEC=" + p.float(cmec);
      var check := gate.value.Check(elapsed, irreversible, note);
      Ok(Checked(check, HoldReport(check, elapsed, ist, cmec, irreversible, p)))
  }

  /** The sandbox a request runs in: the caller's, or a new one. */
  function SandboxOf(sandbox: Option<SandboxArg>): SandboxArg {
    if sandbox.Some? then sandbox.value else SandboxArg(map[], Sandbox.Fresh)
  }

  /** `sb.run(program)` on the request's sandbox. */
  function Run(parsed: map<string, Val>, sandbox: Option<SandboxArg>): Sandbox.Outcome {
    var sb := SandboxOf(sandbox);
    Sandbox.Execute(sb.calls, sb.machine, ProgramOf(parsed))
  }

  /**
   * `run_request(raw_input=..., sandbox=..., x108_gate=..., x108_ctx=...)`.
   * A parse error rejects with `contract_ok` false. The contract's
   * violations are computed by the source and never consulted. A hold of
   * the X-108 gate returns without running the sandbox. The sandbox is the
   * caller's or a new one; an exception there rejects with `contract_ok`
   * true; otherwise the decision is ACT, unless building the report raises.
   * `AsWritten` is the code; `Intended` the pipeline with the report
   * corrected.
   */
  function RunRequest(parsed: Result<map<string, Val>>, sandbox: Option<SandboxArg>, gate: Option<X108.X108Gate>,
                      ctx: Option<Values.Dict>, p: Printer, reading: Reading): Result<OS1Decision>
  {
    if parsed.Raise? then
      var e := parsed.error;
      Ok(OS1Decision(REJECT, "PARSE_ERROR: " + ExceptionName(e) + ": " + p.message(e), false, None, None))
    else
      var ir := parsed.value;
      var consulted :- Consult(gate, ctx, p);
      if consulted.Checked? && consulted.check.decision == X108.HOLD then
        Ok(OS1Decision(HOLD, consulted.holdReport, true, Some(consulted.check), None))
      else
        var meta := if "meta" in ir then ir["meta"] else VDict(map[]);
        Execution(ProgramOf(ir), meta, Run(ir, sandbox), if consulted.Checked? then Some(consulted.check) else None, p, reading)
  }

  // ----- properties ------------------------------------------------------------------

  /** A parse exception rejects with `contract_ok` false, no X-108 result and no OS0 result. */
  lemma ParseErrorRejects(e: Exception, sandbox: Option<SandboxArg>, gate: Option<X108.X108Gate>, ctx: Option<Values.Dict>, p: Printer, reading: Reading)
    ensures var r := RunRequest(Raise(e), sandbox, gate, ctx, p, reading);
            && r.Ok? && r.value.decision == REJECT && !r.value.contractOk
            && r.value.x108.None? && r.value.os0Result.None?
  {
  }

  /**
   * Whatever the decision, `contract_ok` is false exactly when parsing
   * failed; a REJECT comes only from a parse error or a sandbox exception.
   */
  lemma ContractOkIffParsed(parsed: Result<map<string, Val>>, sandbox: Option<SandboxArg>, gate: Option<X108.X108Gate>,
                            ctx: Option<Values.Dict>, p: Printer, reading: Reading)
    ensures var r := RunRequest(parsed, sandbox, gate, ctx, p, reading);
            && (r.Ok? ==> (r.value.contractOk <==> parsed.Ok?))
            && (r.Ok? && r.value.decision == REJECT ==> parsed.Raise? || Run(parsed.value, sandbox).result.Raise?)
  {
  }

  /**
   * Contract violations alone never reject: an untimed `EVENT` violates R7,
   * and the request that carries it is still ACT.
   */
  lemma ViolationsDoNotReject(p: Printer, reading: Reading)
    ensures var program := Items([EVENT("tick")]);
            && Contract.Validate(program) == [Contract.Violation("R7", "EVENT 'tick' sans timestamp")]
            && var r := RunRequest(Ok(map["program" := VNode(program)]), None, None, None, p, reading);
               r.Ok? && r.value.decision == ACT
  {
    var program := Items([EVENT("tick")]);
    assert [EVENT("tick")][1..] == [];
    assert Contract.WalkAll([EVENT("tick")]) == Contract.Walk(EVENT("tick"));
    assert "EVENT '" + "tick" + "' sans timestamp" == "EVENT 'tick' sans timestamp";
    assert Contract.OwnViolations(EVENT("tick")) == [Contract.Violation("R7", "EVENT 'tick' sans timestamp")];
    assert Contract.Walk(EVENT("tick")) == [Contract.Violation("R7", "EVENT 'tick' sans timestamp")];
    assert Contract.WalkAll([EVENT("tick")][1..]) == [];
    var o := Sandbox.Execute(map[], Sandbox.Fresh, program);
    assert o.result == Ok(VNone);
    assert IrType(VDict(map[]), program) == Ok(VNone);
  }

  /**
   * An X-108 hold answers HOLD with the check, never runs the sandbox (the
   * answer is the same whatever sandbox is passed) and has no OS0 result.
   */
  lemma HoldSkipsSandbox(parsed: map<string, Val>, s1: Option<SandboxArg>, s2: Option<SandboxArg>, g: X108.X108Gate,
                         ctx: Option<Values.Dict>, p: Printer, reading: Reading)
    ensures var r := RunRequest(Ok(parsed), s1, Some(g), ctx, p, reading);
            r.Ok? && r.value.x108.Some? && r.value.x108.value.decision == X108.HOLD ==>
              && r.value.decision == HOLD && r.value.contractOk && r.value.os0Result.None?
              && r == RunRequest(Ok(parsed), s2, Some(g), ctx, p, reading)
  {
  }

  /**
   * Without a context the gate is asked about an irreversible action after
   * no time at all, so any positive minimum wait holds the request.
   */
  lemma MissingContextDefaults(parsed: map<string, Val>, sandbox: Option<SandboxArg>, g: X108.X108Gate, p: Printer, reading: Reading)
    ensures var r := RunRequest(Ok(parsed), sandbox, Some(g), None, p, reading);
            && (r.Ok? ==> r.value.x108 == Some(g.Check(0.0, true, "IST=" + p.float(0.0) + " CMEC=" + p.float(0.0))))
            && (g.minWaitS > 0.0 ==> r.Ok? && r.value.decision == HOLD)
  {
  }

  /** Without a gate X-108 is skipped: no check, and an ACT report says `x108: SKIP`. */
  lemma NoGateSkips(parsed: map<string, Val>, sandbox: Option<SandboxArg>, ctx: Option<Values.Dict>, p: Printer, reading: Reading)
    ensures var r := RunRequest(Ok(parsed), sandbox, None, ctx, p, reading);
            && (r.Ok? ==> r.value.x108.None? && r.value.decision != HOLD)
            && (r.Ok? && r.value.decision == ACT ==> StartsWith(r.value.ssr, "ACT\ncontract: OK\nx108: SKIP\n"))
  {
    assert Head(None, p) == "ACT\ncontract: OK\nx108: SKIP\n";
    assert Consult(None, ctx, p) == Ok(Skipped);
  }

  /**
   * A sandbox exception rejects with `contract_ok` true, keeping the X-108
   * check, and without an OS0 result.
   */
  lemma SandboxErrorRejects(parsed: map<string, Val>, sandbox: Option<SandboxArg>, gate: Option<X108.X108Gate>,
                            ctx: Option<Values.Dict>, p: Printer, reading: Reading)
    requires Run(parsed, sandbox).result.Raise?
    ensures var r := RunRequest(Ok(parsed), sandbox, gate, ctx, p, reading);
            r.Ok? && r.value.decision != HOLD ==>
              && r.value.decision == REJECT && r.value.contractOk && r.value.os0Result.None?
              && (gate.Some? ==> r.value.x108.Some? && r.value.x108.value.decision == X108.ACT)
  {
  }

  /**
   * ACT always comes with `contract_ok` true and an OS0 result, and the
   * result is the record of the sandbox's final state exactly when the
   * program returned `None`.
   */
  lemma ActCarriesResult(parsed: Result<map<string, Val>>, sandbox: Option<SandboxArg>, gate: Option<X108.X108Gate>,
                         ctx: Option<Values.Dict>, p: Printer, reading: Reading)
    ensures var r := RunRequest(parsed, sandbox, gate, ctx, p, reading);
            r.Ok? && r.value.decision == ACT ==>
              && parsed.Ok? && r.value.contractOk && r.value.os0Result.Some?
              && var o := Run(parsed.value, sandbox);
                 o.result.Ok?
                 && (r.value.os0Result.value.Record? <==> o.result.value == VNone)
                 && (r.value.os0Result.value.Record? ==> r.value.os0Result.value.state == o.after.state)
  {
    var r := RunRequest(parsed, sandbox, gate, ctx, p, reading);
    if r.Ok? && r.value.decision == ACT {
      var ir := parsed.value;
      var consulted := Consult(gate, ctx, p).value;
      var meta := if "meta" in ir then ir["meta"] else VDict(map[]);
      var o := Run(ir, sandbox);
      var x108 := if consulted.Checked? then Some(consulted.check) else None;
      assert r == Execution(ProgramOf(ir), meta, o, x108, p, reading);
    }
  }

  /**
   * The two readings part on a program that returns a number: as written the
   * request raises `AttributeError` once the sandbox has run; as intended it
   * is an ACT that carries the returned value.
   */
  lemma ReadingsDifferOnReturn(p: Printer)
    ensures var request := Ok(map["program" := VNode(Items([RETURN(VInt(1))]))]);
            && RunRequest(request, None, None, None, p, AsWritten) == Raise(AttributeError("get"))
            && var r := RunRequest(request, None, None, None, p, Intended);
               r.Ok? && r.value.decision == ACT && r.value.os0Result == Some(Returned(VInt(1)))
  {
    NonDictResultBreaksReport(map[]);
    assert IrType(VDict(map[]), Items([RETURN(VInt(1))])) == Ok(VNone);
  }

  /**
   * The two readings part on the exported log: after `[STATE("x")]` both
   * are ACT with a record, whose one row has no operation as written and
   * names the `STATE` as intended.
   */
  lemma ReadingsDifferOnLog(p: Printer)
    ensures var request := Ok(map["program" := VNode(Items([STATE("x")]))]);
            && var w := RunRequest(request, None, None, None, p, AsWritten);
            && var i := RunRequest(request, None, None, None, p, Intended);
            && w.Ok? && w.value.decision == ACT && w.value.os0Result.Some? && w.value.os0Result.value.Record?
            && w.value.os0Result.value.log == [LogRow(1, None)]
            && i.Ok? && i.value.decision == ACT && i.value.os0Result.Some? && i.value.os0Result.value.Record?
            && i.value.os0Result.value.log == [LogRow(1, Some("STATE"))]
  {
    RowsAsWrittenLoseTheOperation(map[]);
    assert IrType(VDict(map[]), Items([STATE("x")])) == Ok(VNone);
  }
}
