/**
 * The JavaScript values that flow through the configuration object: what
 * `JSON.parse` produces, plus `undefined`, which an unset property reads as.
 * JSON numbers are represented by an integer stand-in: the configuration only
 * ever observes whether a number is zero (its truthiness).
 */
module Json {

  datatype Value =
    | Undefined
    | Null
    | Bool(b: bool)
    | Num(n: int)
    | Str(s: string)
    | Arr(items: seq<Value>)
    | Obj(fields: map<string, Value>)

  /** JavaScript truthiness: `undefined`, `null`, `false`, `0` and `""` are falsy, every other value is truthy. */
  predicate Truthy(v: Value) {
    match v
    case Undefined => false
    case Null => false
    case Bool(b) => b
    case Num(n) => n != 0
    case Str(s) => s != ""
    case Arr(_) => true
    case Obj(_) => true
  }

  /** The property read `o[k]` on a plain object held as a map: a missing key reads as `undefined`. */
  function Get(o: map<string, Value>, k: string): Value {
    if k in o then o[k] else Undefined
  }

  /**
   * The property read `v.k` behind a truthiness guard, for a key that is not a
   * built-in property of strings, arrays, numbers or booleans: only an object
   * can supply it.
   */
  function Member(v: Value, k: string): Value {
    if v.Obj? then Get(v.fields, k) else Undefined
  }
}
