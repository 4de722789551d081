/** JSON values as `JSON.parse` produces them, and the few JavaScript rules the
    dashboard applies to them: truthiness, property access and `Array.isArray`. */
module Json {
  import opened Wrappers

  /** A parsed JSON value. A number is an exact real: JSON text never yields
      NaN, and an out-of-range literal such as `1e400`, which parses to
      Infinity, is not distinguished from a large finite number (its truthiness
      and its comparisons come out the same). An object is its own-property map. */
  datatype JValue =
    | JNull
    | JBool(b: bool)
    | JNum(n: real)
    | JStr(s: string)
    | JArr(items: seq<JValue>)
    | JObj(fields: map<string, JValue>)

  /** JavaScript truthiness: `null`, `false`, `0` and `""` are falsy; every
      array and every object, even an empty one, is truthy. */
  predicate Truthy(v: JValue) {
    match v
    case JNull => false
    case JBool(b) => b
    case JNum(n) => n != 0.0
    case JStr(s) => s != ""
    case JArr(_) => true
    case JObj(_) => true
  }

  /** `v?.key`: an own property of an object; `undefined` (None) for a missing
      key and for every non-object (arrays, strings and numbers carry no field
      of the names the dashboard reads). */
  function Field(v: JValue, key: string): Option<JValue> {
    if v.JObj? && key in v.fields then Some(v.fields[key]) else None
  }

  /** Truthiness of a possibly-undefined property (`undefined` is falsy). */
  predicate TruthyField(v: Option<JValue>) {
    v.Some? && Truthy(v.value)
  }

  /** `x || d` for a possibly-undefined value `x`. */
  function OrDefault(v: Option<JValue>, d: JValue): JValue {
    if TruthyField(v) then v.value else d
  }

  /** `x || d` for a defined value `x`. */
  function Or(v: JValue, d: JValue): JValue {
    if Truthy(v) then v else d
  }
}
