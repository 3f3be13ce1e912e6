/** JSON-like values: what a Python `dict` produced by `json.loads`, or handed
    around as an analysis record, may hold. */
module Json {

  datatype Value =
    | JNull
    | JBool(b: bool)
    | JNum(n: real)
    | JStr(s: string)
    | JArray(items: seq<Value>)
    | JObject(fields: map<string, Value>)

  /** A Python `dict` with string keys. */
  type Dict = map<string, Value>

  /** Python's `d.get(key, default)`; `d.get(key)` is `Get(d, key, JNull)`. */
  function Get(d: Dict, key: string, default: Value): Value {
    if key in d then d[key] else default
  }
}
