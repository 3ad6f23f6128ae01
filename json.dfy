/** The JSON values that appear in token headers and payloads. */
module Json {
  import opened Wrappers

  datatype Value = Null | Bool(b: bool) | Int(i: int) | Str(s: string)

  /** A JSON object, as Python's `dict` with string keys. */
  type Object = map<string, Value>

  /** Python's `dict.get(k)`: the value under `k`, or nothing. */
  function Get(o: Object, k: string): (r: Option<Value>)
    ensures r.Some? <==> k in o
    ensures r.Some? ==> r.value == o[k]
  {
    if k in o then Some(o[k]) else None
  }

  /** Python's `v is None` for a value fetched with `dict.get`: absent, or JSON null. */
  predicate IsNone(v: Option<Value>)
  {
    v.None? || v.value.Null?
  }

  /** Python's `v != 1` for a JSON value: `True == 1` holds in Python, other values are not 1. */
  predicate DiffersFromOne(v: Option<Value>)
  {
    !(v == Some(Int(1)) || v == Some(Bool(true)))
  }
}
