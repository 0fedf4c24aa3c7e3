/**
 * The values `json.loads` can produce, and Python's `dict.get` on them. The
 * parser itself is outside the model: callers receive it as a function from
 * text to an optional value (`None` where Python raises `JSONDecodeError`).
 */
module Json {
  import opened Common

  /** A decoded JSON document. Numbers are kept as integers; fractional numbers cannot be represented (see `Truthy`). */
  datatype Value =
    | Null
    | Bool(b: bool)
    | Number(n: int)
    | Str(s: string)
    | Array(items: seq<Value>)
    | Object(fields: map<string, Value>)

  /** `json.loads`, kept abstract: `None` when the text is not valid JSON. */
  type Parser = string -> Option<Value>

  /** Python's truth value of a decoded value: false for null, false, zero and empty text, lists and objects. */
  predicate Truthy(v: Value) {
    match v
    case Null => false
    case Bool(b) => b
    case Number(n) => n != 0
    case Str(s) => s != ""
    case Array(items) => items != []
    case Object(fields) => fields != map[]
  }

  /** `d.get(key, default)` on a dictionary. */
  function Get(d: map<string, Value>, key: string, default: Value): (r: Value)
    ensures key in d ==> r == d[key]
    ensures key !in d ==> r == default
  {
    if key in d then d[key] else default
  }

  /** `v[key]` for a JSON object; `None` where Python raises `KeyError` or `TypeError`. */
  function Index(v: Value, key: string): (r: Option<Value>)
    ensures r.Some? <==> v.Object? && key in v.fields
    ensures r.Some? ==> r.value == v.fields[key]
  {
    match v
    case Object(d) => if key in d then Some(d[key]) else None
    case _ => None
  }
}
