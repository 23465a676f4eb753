/**
 * The JavaScript values that arrive as untyped stream payloads (`unknown` in
 * the source), with the two operations the type guards use: `typeof x ===
 * "object" && x !== null`, the `in` operator, and truthiness.
 */
module JsValues {

  /** A JavaScript value. Numbers are integers here; an object maps its own keys to values. */
  datatype Json =
    | Undefined
    | Null
    | Bool(b: bool)
    | Num(n: int)
    | Str(s: string)
    | Arr(items: seq<Json>)
    | Obj(fields: map<string, Json>)

  /** `typeof v === "object" && v !== null`: arrays and plain objects. */
  predicate IsObject(v: Json) {
    v.Arr? || v.Obj?
  }

  /**
   * `k in v` for the keys the guards ask about. An array owns only `length` and
   * its indices, none of which any guard looks for, so only plain objects answer yes.
   */
  predicate HasKey(v: Json, k: string) {
    v.Obj? && k in v.fields
  }

  /** `v[k]` on an object: `undefined` when the key is missing. */
  function Get(v: Json, k: string): (r: Json)
    ensures !HasKey(v, k) ==> r == Undefined
  {
    if v.Obj? && k in v.fields then v.fields[k] else Undefined
  }

  /** JavaScript truthiness: `undefined`, `null`, `false`, `0` and `""` are falsy. */
  predicate Truthy(v: Json) {
    match v
    case Undefined => false
    case Null => false
    case Bool(b) => b
    case Num(n) => n != 0
    case Str(s) => s != ""
    case Arr(_) => true
    case Obj(_) => true
  }

  /** `a + b` where both operands are numbers; other operand kinds are not modelled. */
  function Plus(a: Json, b: Json): (r: Json)
    ensures a.Num? && b.Num? ==> r.Num? && r.n == a.n + b.n
  {
    if a.Num? && b.Num? then Num(a.n + b.n) else Undefined
  }
}
