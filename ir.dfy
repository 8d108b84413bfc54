/**
 * The L2 alphabet of OS0: eleven frozen node records, plus the shapes a
 * program may hold in node position without being a node (a three-element
 * tuple expression, a Python list, any other value).
 */
module Ir {
  import opened Wrappers

  /** The default bound on the iterations of a `LOOP`. */
  const DefaultMaxIters: int := 10_000

  /** The code an `ERROR` carries when none is given. */
  const DefaultErrorCode: string := "ERROR"

  /**
   * A Python value as an IR program handles it: a scalar, a dict, or a node
   * used as a value. A Python list is the node `Items`.
   */
  datatype Val =
    | VNone
    | VBool(b: bool)
    | VInt(i: int)
    | VFloat(r: real)
    | VStr(s: string)
    | VDict(entries: map<string, Val>)
    | VNode(n: Node)

  /**
   * What a program holds where a node is expected. The first eleven
   * constructors are the alphabet; `Expr` is a tuple `(op, a, b)`, `Items`
   * a list, and `Lit` any other (non-node) value. Dafny needs distinct field
   * names where the records share one with another type: `RETURN.value` is
   * `returned` and `TIME.t` is `clock`.
   */
  datatype Node =
    | VALUE(v: Val)
    | STATE(name: string)
    | READ(state: Node)
    | WRITE(state: Node, value: Node)
    | FLOW(steps: seq<Node>)
    | COND(expr: Node)
    | LOOP(cond: Node, body: seq<Node>, maxIters: Option<int> := Some(DefaultMaxIters))
    | CALL(fn: string, args: seq<Node>)
    | RETURN(returned: Val)
    | EVENT(name: string, payload: Val := VNone, t: Option<int> := None)
    | TIME(clock: int)
    | Expr(op: string, a: Node, b: Node)
    | Items(items: seq<Node>)
    | Lit(v: Val)

  /** `ERROR(message, code)`, the raisable error of the IR. */
  datatype Error = ERROR(message: string, code: string := DefaultErrorCode) {
    /** Raising it, as the model's exception. */
    function Raised(): Exception {
      IrError(message, code)
    }
  }

  /** The eleven classes of the alphabet. */
  predicate InAlphabet(n: Node) {
    !(n.Expr? || n.Items? || n.Lit?)
  }

  /** `type(x).__name__` of a value. */
  function TypeName(v: Val): string {
    match v
    case VNone => "NoneType"
    case VBool(_) => "bool"
    case VInt(_) => "int"
    case VFloat(_) => "float"
    case VStr(_) => "str"
    case VDict(_) => "dict"
    case VNode(n) => ClassName(n)
  }

  /** `type(node).__name__` of whatever sits in node position. */
  function ClassName(n: Node): string {
    match n
    case VALUE(_) => "VALUE"
    case STATE(_) => "STATE"
    case READ(_) => "READ"
    case WRITE(_, _) => "WRITE"
    case FLOW(_) => "FLOW"
    case COND(_) => "COND"
    case LOOP(_, _, _) => "LOOP"
    case CALL(_, _) => "CALL"
    case RETURN(_) => "RETURN"
    case EVENT(_, _, _) => "EVENT"
    case TIME(_) => "TIME"
    case Expr(_, _, _) => "tuple"
    case Items(_) => "list"
    case Lit(v) => if v.VNode? then "object" else TypeName(v)
  }

  /** The number of nodes in a tree, the measure every traversal decreases. */
  function Size(n: Node): (k: nat)
    ensures k >= 1
  {
    match n
    case READ(s) => 1 + Size(s)
    case WRITE(s, v) => 1 + Size(s) + Size(v)
    case FLOW(steps) => 1 + SizeAll(steps)
    case COND(e) => 1 + Size(e)
    case LOOP(c, b, _) => 1 + Size(c) + SizeAll(b)
    case CALL(_, args) => 1 + SizeAll(args)
    case Expr(_, a, b) => 1 + Size(a) + Size(b)
    case Items(ns) => 1 + SizeAll(ns)
    case _ => 1
  }

  function SizeAll(ns: seq<Node>): (k: nat)
    ensures |ns| > 0 ==> k == Size(ns[0]) + SizeAll(ns[1..])
    ensures k >= |ns|
  {
    if |ns| == 0 then 0 else Size(ns[0]) + SizeAll(ns[1..])
  }

  /** Every element of a sequence is no bigger than the sequence. */
  lemma {:induction false} SizeAllBounds(ns: seq<Node>, i: int)
    requires 0 <= i < |ns|
    ensures Size(ns[i]) <= SizeAll(ns)
    ensures SizeAll(ns[i + 1..]) < SizeAll(ns[i..])
  {
    if i > 0 {
      SizeAllBounds(ns[1..], i - 1);
      assert ns[1..][i - 1] == ns[i];
      assert ns[1..][i - 1..] == ns[i..];
      assert ns[1..][i..] == ns[i + 1..];
    } else {
      assert ns[0..] == ns;
    }
  }
}
