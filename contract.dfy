/**
 * The structural contract of OS0: rules R1, R5, R6, R7 and R10 checked on
 * the shape of an IR program, violations listed in the order of a pre-order
 * walk. The other rules are enforced by the sandbox at run time.
 */
module Contract {
  import opened Wrappers
  import opened Ir

  /** `(rule, message)`. */
  datatype Violation = Violation(rule: string, message: string)

  /** The violations a node reports about itself, before its children's. */
  function OwnViolations(n: Node): seq<Violation>
    requires InAlphabet(n)
  {
    (if n.READ? && !n.state.STATE? then [Violation("R1", "READ doit viser un STATE")] else [])
    + (if n.WRITE? && !n.state.STATE? then [Violation("R1", "WRITE doit viser un STATE")] else [])
    + (if n.LOOP? && !n.cond.COND? then [Violation("R5", "LOOP doit utiliser COND")] else [])
    + (if n.LOOP? && (n.maxIters.None? || n.maxIters.value <= 0) then [Violation("R6", "LOOP doit avoir max_iters > 0")] else [])
    + (if n.EVENT? && n.t.None? then [Violation("R7", "EVENT '" + n.name + "' sans timestamp")] else [])
  }

  /**
   * `_walk(node, v)`, as the violations it appends. A list is walked element
   * by element; anything outside the alphabet is one R10 and is not entered;
   * any other node reports its own violations, then walks the steps of a
   * `FLOW`, the condition and body of a `LOOP`, those arguments of a `CALL`
   * that are nodes or lists, and the value of a `WRITE` when it is a node.
   */
  function Walk(n: Node): seq<Violation>
    decreases Size(n), 1
  {
    if n.Items? then WalkAll(n.items)
    else if !InAlphabet(n) then [Violation("R10", "Hors-alphabet: " + ClassName(n))]
    else OwnViolations(n) + WalkChildren(n)
  }

  /** The parts of an alphabet node that the walk enters, in order. */
  function WalkChildren(n: Node): seq<Violation>
    decreases Size(n), 0
  {
    match n
    case FLOW(steps) => WalkAll(steps)
    case LOOP(cond, body, _) => Walk(cond) + WalkAll(body)
    case CALL(_, args) => WalkArgs(args)
    case WRITE(_, value) => if InAlphabet(value) then Walk(value) else []
    case _ => []
  }

  function WalkAll(ns: seq<Node>): seq<Violation>
    decreases SizeAll(ns), 2
  {
    if |ns| == 0 then [] else Walk(ns[0]) + WalkAll(ns[1..])
  }

  /** The arguments of a `CALL`: only alphabet nodes and lists are walked. */
  function WalkArgs(args: seq<Node>): seq<Violation>
    decreases SizeAll(args), 2
  {
    if |args| == 0 then []
    else (if InAlphabet(args[0]) || args[0].Items? then Walk(args[0]) else []) + WalkArgs(args[1..])
  }

  /** `validate(program)`: it only reads the program and reports, never raises. */
  function Validate(program: Node): (vs: seq<Violation>)
    ensures vs == [] <==> WellFormed(program)
  {
    CleanIffWellFormed(program);
    Walk(program)
  }

  // ----- an independent statement of the rules --------------------------------

  /**
   * The programs the contract accepts, rule by rule: READ and WRITE target a
   * `STATE`, a `LOOP` uses a `COND` and a positive bound, an `EVENT` is
   * timestamped, nothing outside the alphabet appears where the walk looks,
   * and the same holds of every part the walk enters.
   */
  predicate WellFormed(n: Node)
    decreases Size(n), 0
  {
    match n
    case Items(ns) => AllWellFormed(ns)
    case Expr(_, _, _) => false
    case Lit(_) => false
    case READ(target) => target.STATE?
    case WRITE(target, value) => target.STATE? && (InAlphabet(value) ==> WellFormed(value))
    case FLOW(steps) => AllWellFormed(steps)
    case LOOP(cond, body, maxIters) =>
      cond.COND? && maxIters.Some? && maxIters.value > 0 && WellFormed(cond) && AllWellFormed(body)
    case CALL(_, args) => ArgsWellFormed(args)
    case EVENT(_, _, t) => t.Some?
    case _ => true
  }

  predicate AllWellFormed(ns: seq<Node>)
    decreases SizeAll(ns), 1
  {
    |ns| == 0 || (WellFormed(ns[0]) && AllWellFormed(ns[1..]))
  }

  predicate ArgsWellFormed(args: seq<Node>)
    decreases SizeAll(args), 1
  {
    |args| == 0 || ((InAlphabet(args[0]) || args[0].Items? ==> WellFormed(args[0])) && ArgsWellFormed(args[1..]))
  }

  /** A program validates to the empty list exactly when it is well formed. */
  lemma {:induction false} CleanIffWellFormed(n: Node)
    ensures Walk(n) == [] <==> WellFormed(n)
    decreases Size(n), 0
  {
    match n
    case Items(ns) => CleanIffWellFormedAll(ns);
    case FLOW(steps) => CleanIffWellFormedAll(steps);
    case LOOP(cond, body, _) =>
      CleanIffWellFormed(cond);
      CleanIffWellFormedAll(body);
    case CALL(_, args) => CleanIffWellFormedArgs(args);
    case WRITE(_, value) =>
      if InAlphabet(value) {
        CleanIffWellFormed(value);
      }
    case _ =>
  }

  lemma {:induction false} CleanIffWellFormedAll(ns: seq<Node>)
    ensures WalkAll(ns) == [] <==> AllWellFormed(ns)
    decreases SizeAll(ns), 1
  {
    if |ns| > 0 {
      CleanIffWellFormed(ns[0]);
      CleanIffWellFormedAll(ns[1..]);
    }
  }

  lemma {:induction false} CleanIffWellFormedArgs(args: seq<Node>)
    ensures WalkArgs(args) == [] <==> ArgsWellFormed(args)
    decreases SizeAll(args), 1
  {
    if |args| > 0 {
      if InAlphabet(args[0]) || args[0].Items? {
        CleanIffWellFormed(args[0]);
      }
      CleanIffWellFormedArgs(args[1..]);
    }
  }

  /** The rules the structural check can report. */
  predicate StructuralRule(v: Violation) {
    v.rule == "R1" || v.rule == "R5" || v.rule == "R6" || v.rule == "R7" || v.rule == "R10"
  }

  /** Every violation of the list is of a structural rule. */
  predicate AllStructural(vs: seq<Violation>) {
    forall i :: 0 <= i < |vs| ==> StructuralRule(vs[i])
  }

  lemma ConcatStructural(xs: seq<Violation>, ys: seq<Violation>)
    requires AllStructural(xs) && AllStructural(ys)
    ensures AllStructural(xs + ys)
  {
    forall i | 0 <= i < |xs + ys|
      ensures StructuralRule((xs + ys)[i])
    {
      if i < |xs| {
        assert (xs + ys)[i] == xs[i];
      } else {
        assert (xs + ys)[i] == ys[i - |xs|];
      }
    }
  }

  lemma OwnViolationsStructural(n: Node)
    requires InAlphabet(n)
    ensures AllStructural(OwnViolations(n))
  {
    var r1 := if n.READ? && !n.state.STATE? then [Violation("R1", "READ doit viser un STATE")] else [];
    var w1 := if n.WRITE? && !n.state.STATE? then [Violation("R1", "WRITE doit viser un STATE")] else [];
    var r5 := if n.LOOP? && !n.cond.COND? then [Violation("R5", "LOOP doit utiliser COND")] else [];
    var r6 := if n.LOOP? && (n.maxIters.None? || n.maxIters.value <= 0) then [Violation("R6", "LOOP doit avoir max_iters > 0")] else [];
    var r7 := if n.EVENT? && n.t.None? then [Violation("R7", "EVENT '" + n.name + "' sans timestamp")] else [];
    assert OwnViolations(n) == r1 + w1 + r5 + r6 + r7;
    ConcatStructural(r1, w1);
    ConcatStructural(r1 + w1, r5);
    ConcatStructural(r1 + w1 + r5, r6);
    ConcatStructural(r1 + w1 + r5 + r6, r7);
  }

  /** Only R1, R5, R6, R7 and R10 are ever reported; R2, R3, R4, R8 and R9 are left to run time. */
  lemma {:induction false} OnlyStructuralRules(n: Node)
    ensures AllStructural(Walk(n))
    decreases Size(n), 0
  {
    if n.Items? {
      OnlyStructuralRulesAll(n.items);
    } else if InAlphabet(n) {
      OwnViolationsStructural(n);
      var rest := match n
        case FLOW(steps) => WalkAll(steps)
        case LOOP(cond, body, _) => Walk(cond) + WalkAll(body)
        case CALL(_, args) => WalkArgs(args)
        case WRITE(_, value) => if InAlphabet(value) then Walk(value) else []
        case _ => [];
      match n {
        case FLOW(steps) => OnlyStructuralRulesAll(steps);
        case LOOP(cond, body, _) =>
          OnlyStructuralRules(cond);
          OnlyStructuralRulesAll(body);
          ConcatStructural(Walk(cond), WalkAll(body));
        case CALL(_, args) => OnlyStructuralRulesArgs(args);
        case WRITE(_, value) =>
          if InAlphabet(value) {
            OnlyStructuralRules(value);
          }
        case _ =>
      }
      assert Walk(n) == OwnViolations(n) + rest;
      ConcatStructural(OwnViolations(n), rest);
    }
  }

  lemma {:induction false} OnlyStructuralRulesAll(ns: seq<Node>)
    ensures AllStructural(WalkAll(ns))
    decreases SizeAll(ns), 1
  {
    if |ns| > 0 {
      OnlyStructuralRules(ns[0]);
      OnlyStructuralRulesAll(ns[1..]);
      ConcatStructural(Walk(ns[0]), WalkAll(ns[1..]));
    }
  }

  lemma {:induction false} OnlyStructuralRulesArgs(args: seq<Node>)
    ensures AllStructural(WalkArgs(args))
    decreases SizeAll(args), 1
  {
    if |args| > 0 {
      var first := if InAlphabet(args[0]) || args[0].Items? then Walk(args[0]) else [];
      if InAlphabet(args[0]) || args[0].Items? {
        OnlyStructuralRules(args[0]);
      }
      OnlyStructuralRulesArgs(args[1..]);
      ConcatStructural(first, WalkArgs(args[1..]));
    }
  }

  /**
   * Pre-order: the violations of a list are those of its first part followed
   * by those of the rest, for any split.
   */
  lemma {:induction false} WalkAllConcat(xs: seq<Node>, ys: seq<Node>)
    ensures WalkAll(xs + ys) == WalkAll(xs) + WalkAll(ys)
    decreases |xs|
  {
    if |xs| == 0 {
      assert xs + ys == ys;
    } else {
      assert (xs + ys)[0] == xs[0];
      assert (xs + ys)[1..] == xs[1..] + ys;
      WalkAllConcat(xs[1..], ys);
    }
  }

  /**
   * A node outside the alphabet adds exactly one R10 naming its type, and
   * nothing inside it is examined.
   */
  lemma ForeignNodeIsOneR10(n: Node)
    requires !InAlphabet(n) && !n.Items?
    ensures Validate(n) == [Violation("R10", "Hors-alphabet: " + ClassName(n))]
  {
  }

  /**
   * A `LOOP` reports its own problems (R5, then R6) before those of its
   * condition and body, and without them it reports exactly theirs.
   */
  lemma LoopReportsItselfFirst(cond: Node, body: seq<Node>, maxIters: Option<int>)
    ensures var v := Validate(LOOP(cond, body, maxIters));
            && (!cond.COND? ==> |v| > 0 && v[0] == Violation("R5", "LOOP doit utiliser COND"))
            && (cond.COND? && (maxIters.None? || maxIters.value <= 0) ==> |v| > 0 && v[0] == Violation("R6", "LOOP doit avoir max_iters > 0"))
            && (cond.COND? && maxIters.Some? && maxIters.value > 0 ==> v == Walk(cond) + WalkAll(body))
  {
    var n := LOOP(cond, body, maxIters);
    assert WalkChildren(n) == Walk(cond) + WalkAll(body);
  }

  /** `READ` and `WRITE` of something other than a `STATE` report R1; the target is not walked. */
  lemma NonStateTargetIsR1(target: Node, value: Node)
    requires !target.STATE?
    ensures Validate(READ(target)) == [Violation("R1", "READ doit viser un STATE")]
    ensures |Validate(WRITE(target, value))| > 0 && Validate(WRITE(target, value))[0] == Violation("R1", "WRITE doit viser un STATE")
  {
    assert WalkChildren(READ(target)) == [];
    assert Walk(WRITE(target, value)) == OwnViolations(WRITE(target, value)) + WalkChildren(WRITE(target, value));
  }

  /** An `EVENT` without a timestamp reports R7, one with a timestamp nothing. */
  lemma UntimedEventIsR7(name: string, payload: Val, t: Option<int>)
    ensures Validate(EVENT(name, payload, t)) == (if t.None? then [Violation("R7", "EVENT '" + name + "' sans timestamp")] else [])
  {
    assert WalkChildren(EVENT(name, payload, t)) == [];
  }

  /** The counting loop `x = 0; while x < 3: x = x + 1`, bounded by 10 iterations. */
  function CountingProgram(): seq<Node> {
    [STATE("x"), WRITE(STATE("x"), VALUE(VInt(0))),
     LOOP(COND(Expr("<", READ(STATE("x")), VALUE(VInt(3)))),
          [WRITE(STATE("x"), Expr("+", READ(STATE("x")), VALUE(VInt(1))))], Some(10))]
  }

  lemma OneWellFormed(n: Node)
    requires WellFormed(n)
    ensures AllWellFormed([n])
  {
    assert [n][1..] == [];
  }

  lemma ConsWellFormed(n: Node, ns: seq<Node>)
    requires WellFormed(n) && AllWellFormed(ns)
    ensures AllWellFormed([n] + ns)
  {
    assert ([n] + ns)[1..] == ns;
  }

  lemma CountingProgramIsWellFormed()
    ensures AllWellFormed(CountingProgram())
  {
    var p := CountingProgram();
    var body := [WRITE(STATE("x"), Expr("+", READ(STATE("x")), VALUE(VInt(1))))];
    OneWellFormed(body[0]);
    assert WellFormed(p[2]);
    OneWellFormed(p[2]);
    ConsWellFormed(p[1], [p[2]]);
    ConsWellFormed(p[0], [p[1], p[2]]);
    assert [p[0]] + [p[1], p[2]] == p;
  }

  /** `[READ(STATE("x"))]` validates cleanly. */
  lemma ReadProgramIsClean()
    ensures Validate(Items([READ(STATE("x"))])) == []
  {
    OneWellFormed(READ(STATE("x")));
    CleanIffWellFormed(Items([READ(STATE("x"))]));
  }

  /** `[TIME(10), TIME(9)]` validates cleanly: the contract does not look at the order of the clock. */
  lemma ClockProgramIsClean()
    ensures Validate(Items([TIME(10), TIME(9)])) == []
  {
    OneWellFormed(TIME(9));
    ConsWellFormed(TIME(10), [TIME(9)]);
    assert [TIME(10)] + [TIME(9)] == [TIME(10), TIME(9)];
    CleanIffWellFormed(Items([TIME(10), TIME(9)]));
  }

  /** The counting loop validates cleanly. */
  lemma CountingProgramIsClean()
    ensures Validate(Items(CountingProgram())) == []
  {
    CountingProgramIsWellFormed();
    CleanIffWellFormed(Items(CountingProgram()));
  }
}
