/**
 * JavaScript values as they come out of `JSON.parse` / `res.json()`, with the
 * two operations the tool executors apply to them: truthiness tests
 * (`data.location ? … : …`) and property reads (`data.location.name`).
 */
module Json {
  datatype Value =
    | Undefined
    | Null
    | Bool(b: bool)
    | Number(x: real)
    | Str(s: string)
    | Arr(items: seq<Value>)
    | Obj(fields: map<string, Value>)

  /** JavaScript truthiness; JSON has no NaN, so the falsy values are undefined, null, false, 0 and "". */
  predicate Truthy(v: Value) {
    match v
    case Undefined => false
    case Null => false
    case Bool(b) => b
    case Number(x) => x != 0.0
    case Str(s) => s != ""
    case Arr(_) => true
    case Obj(_) => true
  }

  /**
   * `v.key` on a value that is neither null nor undefined: an object's own
   * property, and `undefined` for anything else (booleans, numbers, strings
   * and arrays have none of the keys the executors read).
   */
  function Get(v: Value, key: string): Value
    requires v != Undefined && v != Null
  {
    match v
    case Obj(fields) => if key in fields then fields[key] else Undefined
    case _ => Undefined
  }
}
