/**
 * Dynamically typed values as they travel through the governance code in
 * dicts (intents, feature maps, run state, scenario rows), with the parts of
 * Python's semantics the code depends on: `float(x)`, numeric comparison and
 * truthiness.
 */
module Values {
  import opened Wrappers
  import Text

  datatype Value =
    | VNone
    | VBool(b: bool)
    | VInt(i: int)
    | VFloat(r: real)
    | VStr(s: string)
    | VList(items: seq<Value>)
    | VDict(entries: map<string, Value>)

  /** A Python `dict` with string keys. */
  type Dict = map<string, Value>

  /** `d.get(key, default)`. */
  function Get(d: Dict, key: string, default: Value): Value {
    if key in d then d[key] else default
  }

  /**
   * The numeric value of a `bool`, `int` or `float`, as used by `<`, `>`, `-`;
   * any other operand makes the operator raise `TypeError`.
   */
  function Number(v: Value): (r: Result<real>)
    ensures r.Ok? <==> (v.VBool? || v.VInt? || v.VFloat?)
    ensures r.Raise? ==> r.error == TypeError
  {
    match v
    case VBool(b) => Ok(if b then 1.0 else 0.0)
    case VInt(i) => Ok(i as real)
    case VFloat(x) => Ok(x)
    case _ => Raise(TypeError)
  }

  /**
   * `float(v)`: numbers convert, a string is parsed as a decimal literal
   * (`ValueError` when it is not one), anything else raises `TypeError`.
   */
  function ToFloat(v: Value): (r: Result<real>)
    ensures Number(v).Ok? ==> r == Number(v)
    ensures v.VStr? ==> (r.Ok? <==> Text.ParseFloat(v.s).Some?)
    ensures (v.VNone? || v.VList? || v.VDict?) ==> r == Raise(TypeError)
  {
    match v
    case VStr(s) =>
      var parsed := Text.ParseFloat(s);
      if parsed.Some? then Ok(parsed.value) else Raise(ValueError)
    case _ => Number(v)
  }

  /** `a == b` on scalars: numbers (`bool`, `int`, `float`) compare by value, anything else structurally. */
  predicate ScalarEq(a: Value, b: Value) {
    if Number(a).Ok? && Number(b).Ok? then Number(a).value == Number(b).value else a == b
  }

  /**
   * `a == b`: lists element by element, dicts key by key, scalars by
   * `ScalarEq`; the elements themselves are compared as scalars.
   */
  predicate PyEq(a: Value, b: Value) {
    if a.VDict? && b.VDict? then
      a.entries.Keys == b.entries.Keys && forall k :: k in a.entries ==> ScalarEq(a.entries[k], b.entries[k])
    else if a.VList? && b.VList? then
      |a.items| == |b.items| && forall i :: 0 <= i < |a.items| ==> ScalarEq(a.items[i], b.items[i])
    else ScalarEq(a, b)
  }

  /** Equality is reflexive and symmetric, and it identifies `1`, `1.0` and `True`. */
  lemma PyEqIsAnEquivalence(a: Value, b: Value)
    ensures PyEq(a, a)
    ensures PyEq(a, b) <==> PyEq(b, a)
    ensures PyEq(VInt(1), VFloat(1.0)) && PyEq(VBool(true), VInt(1)) && !PyEq(VStr("1"), VInt(1))
  {
  }

  /** `str(v)` / `format(v)`: a string as itself, any other value through `show`. */
  function Format(v: Value, show: Value -> string): string {
    if v.VStr? then v.s else show(v)
  }

  /** `bool(v)`. */
  predicate Truthy(v: Value) {
    match v
    case VNone => false
    case VBool(b) => b
    case VInt(i) => i != 0
    case VFloat(x) => x != 0.0
    case VStr(s) => s != ""
    case VList(items) => items != []
    case VDict(entries) => entries != map[]
  }
}
