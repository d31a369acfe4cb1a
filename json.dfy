/**
 * The JavaScript values that `res.json()` produces, and the two operations the
 * services apply to them: truthiness (`if (data)`, `data && …`) and property
 * access (`data.modules`).
 */
module Json {
  import opened Wrappers

  /** A decoded JSON value. */
  datatype Value =
    | Null
    | Bool(b: bool)
    | Num(n: real)
    | Str(s: string)
    | Arr(items: seq<Value>)
    | Obj(fields: map<string, Value>)

  /** JavaScript truthiness: `null`, `false`, `0` and `""` are falsy; arrays and objects are truthy. */
  predicate Truthy(v: Value)
  {
    match v
    case Null => false
    case Bool(b) => b
    case Num(n) => n != 0.0
    case Str(s) => s != ""
    case Arr(_) => true
    case Obj(_) => true
  }

  /**
   * `v[key]` for a property name that no built-in prototype defines: the
   * field of an object, and `undefined` (None) for every other value or a
   * missing key.
   */
  function Member(v: Value, key: string): Option<Value>
  {
    if v.Obj? && key in v.fields then Some(v.fields[key]) else None
  }

  /** `Array.isArray(x)` where `x` may be `undefined`. */
  predicate IsArray(x: Option<Value>)
  {
    x.Some? && x.value.Arr?
  }

  /** Truthiness of a value that may be `undefined`. */
  predicate TruthyMember(x: Option<Value>)
  {
    x.Some? && Truthy(x.value)
  }

  /** The object `{ key: list }`. */
  function Wrap(key: string, list: seq<Value>): Value
  {
    Obj(map[key := Arr(list)])
  }
}
