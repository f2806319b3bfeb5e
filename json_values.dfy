/**
  Values shared by both handlers: the decoded JSON values that arrive in an
  invocation event, Python's truthiness and number tests on them, and the
  Option/Result wrappers used for foreign calls that may fail.
 */
module JsonValues {

  datatype Option<+T> = None | Some(value: T)

  datatype Result<+T, +E> = Ok(value: T) | Err(error: E)

  /** A JSON value as Python's json module decodes it. A JSON object becomes
      a dict, so a repeated key keeps its last value and key order is not
      observable; it is therefore a map here. Only integral numbers are
      modelled. */
  datatype Json =
    | JNull
    | JBool(b: bool)
    | JNumber(n: int)
    | JString(s: string)
    | JArray(elems: seq<Json>)
    | JObject(fields: map<string, Json>)

  /** Python's `not v`: None, False, zero and the empty string, list and dict. */
  predicate Falsy(v: Json) {
    match v
    case JNull => true
    case JBool(b) => !b
    case JNumber(n) => n == 0
    case JString(s) => s == ""
    case JArray(e) => e == []
    case JObject(f) => f == map[]
  }

  /** `d.get(key, default)`; `d.get(key)` is `Get(d, key, JNull)`. */
  function Get(d: map<string, Json>, key: string, default: Json): Json {
    if key in d then d[key] else default
  }

  /** `isinstance(v, (int, float))`. In Python `bool` is a subclass of `int`,
      so True and False pass the test. */
  predicate IsNumber(v: Json) {
    v.JNumber? || v.JBool?
  }

  /** `int(v)` for a value that passed IsNumber (and `v` itself where Python
      compares it with an int). */
  function IntValue(v: Json): int
    requires IsNumber(v)
  {
    if v.JNumber? then v.n else if v.b then 1 else 0
  }
}
