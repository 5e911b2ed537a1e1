/** Values shared by every service of the backend: optional values, bytes,
    and the JSON values that request bodies, the provider configuration and
    the extraction model's reply are made of. */
module Common {

  datatype Option<+T> = None | Some(value: T)

  newtype byte = b: int | 0 <= b < 256

  /** A decoded JSON value as Python's json module produces it. Numbers are
      modelled as integers only. */
  datatype Value =
    | Str(s: string)
    | Int(n: int)
    | Bool(b: bool)
    | Null
    | Array(items: seq<Value>)
    | Object(fields: map<string, Value>)

  /** Python truthiness of a decoded JSON value (`if v:`). */
  predicate Truthy(v: Value)
  {
    match v
    case Str(s) => s != ""
    case Int(n) => n != 0
    case Bool(b) => b
    case Null => false
    case Array(items) => items != []
    case Object(fields) => fields != map[]
  }

  /** Truthiness of an optional value: a missing one (`None`) is falsy. */
  predicate TruthyOpt(v: Option<Value>)
  {
    v.Some? && Truthy(v.value)
  }

  /** `d.get(key)` on a Python dict. */
  function Get(fields: map<string, Value>, key: string): (r: Option<Value>)
    ensures r.Some? <==> key in fields
    ensures r.Some? ==> r.value == fields[key]
  {
    if key in fields then Some(fields[key]) else None
  }
}
