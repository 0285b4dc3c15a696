/**
 * Decoded JSON values as the gateway sees them after `json.loads`, with the
 * two pieces of Python semantics the handler relies on: truthiness (`or`,
 * `not`) and `dict.get`.
 */
module Json {

  /**
   * A decoded JSON value. A number keeps the form `json.loads` gives it, an
   * integer or a float, since a job id is echoed back and passed on as text
   * and `42` and `42.0` read differently there.
   */
  datatype Value =
    | Null
    | Bool(b: bool)
    | Int(i: int)
    | Float(f: real)
    | Str(s: string)
    | Array(items: seq<Value>)
    | Object(fields: map<string, Value>)

  /** Python truthiness of the decoded value: None, False, 0, "", [] and {} are false. */
  predicate Truthy(v: Value)
    ensures Truthy(v) <==>
      v != Null && v != Bool(false) && v != Int(0) && v != Float(0.0) && v != Str([]) && v != Array([]) && v != Object(map[])
  {
    match v
    case Null => false
    case Bool(b) => b
    case Int(i) => i != 0
    case Float(f) => f != 0.0
    case Str(s) => s != []
    case Array(items) => items != []
    case Object(fields) => fields != map[]
  }

  /** `d.get(key)`: the value under `key`, or None (here Null) when the key is absent. */
  function Get(fields: map<string, Value>, key: string): (v: Value)
    ensures key in fields ==> v == fields[key]
    ensures key !in fields ==> v == Null && !Truthy(v)
  {
    if key in fields then fields[key] else Null
  }
}
