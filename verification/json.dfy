/** Decoded JSON values: the tool arguments the model sends, and the values the tools return. */
module Json {
  import opened Wrappers

  /** A JSON value. Numbers are kept as integers; floating point is not modelled. */
  datatype Value =
    | Null
    | Bool(b: bool)
    | Num(n: int)
    | Str(s: string)
    | Arr(items: seq<Value>)
    | Obj(fields: map<string, Value>)

  /** The value reached by following `path` through nested objects, if every key is present. */
  function At(v: Value, path: seq<string>): (found: Option<Value>)
    decreases |path|
  {
    if path == [] then Some(v)
    else if v.Obj? && path[0] in v.fields then At(v.fields[path[0]], path[1..])
    else None
  }
}
