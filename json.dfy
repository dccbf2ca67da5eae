/**
 * A decoded JSON document as the consumer sees it after the framework's
 * `json.loads`, with the two Python operations the relay applies to it:
 * truth testing (`if message:`, `if not (sdp and sender):`) and
 * `dict.get`, which answers `None` for a missing key.
 */
module Json {

  /** A JSON value. Numbers are integers here; JSON fractions are not part of this model. */
  datatype Value =
    | Null
    | Bool(b: bool)
    | Number(n: int)
    | Str(s: string)
    | Array(items: seq<Value>)
    | Object(fields: map<string, Value>)

  /** Python truthiness of the decoded value: `None`, `False`, `0`, `""`,
      `[]` and `{}` are false, everything else is true. */
  predicate Truthy(v: Value) {
    match v
    case Null => false
    case Bool(b) => b
    case Number(n) => n != 0
    case Str(s) => s != []
    case Array(items) => items != []
    case Object(fields) => fields != map[]
  }

  /** `d.get(key)` on a JSON object: a missing key reads as `None`, the
      same value as an explicit JSON `null`. */
  function Get(d: Value, key: string): Value
    requires d.Object?
  {
    if key in d.fields then d.fields[key] else Null
  }
}
