/** The loosely typed values the service reads out of a decoded JSON object
    (alert_bot/app.py works on the `dict` that `json.loads` returns). */
module JsonValue {

  /** A JSON value as Python holds it after `json.loads`. Only the shapes the
      payload schema distinguishes are kept apart: `null`, strings and
      integers. Every other value (booleans, floats, arrays, objects) is
      `Other`, carrying only its Python truthiness. */
  datatype Value = Null | Str(s: string) | Int(i: int) | Other(truthy: bool)

  /** A decoded JSON object. */
  type Object = map<string, Value>

  /** Python truthiness, which decides what `x or default` keeps. */
  predicate Truthy(v: Value) {
    match v
    case Null => false
    case Str(s) => s != []
    case Int(i) => i != 0
    case Other(t) => t
  }

  /** `d.get(key)`: the value under `key`, or `None` when the key is absent. */
  function Get(d: Object, key: string): (v: Value)
    ensures key in d ==> v == d[key]
    ensures key !in d ==> v == Null
  {
    if key in d then d[key] else Null
  }

  /** `v or default` for a string default. */
  function OrDefault(v: Value, default: string): (r: Value)
    ensures Truthy(v) ==> r == v
    ensures !Truthy(v) ==> r == Str(default)
  {
    if Truthy(v) then v else Str(default)
  }
}
