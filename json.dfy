/**
 * The values `JSON.parse` produces, as the HTTP handler sees them, together
 * with JavaScript truthiness and property access (`v.key`, `v?.key`).
 */
module JsonValue {
  import opened Wrappers

  datatype Json =
    | JNull
    | JBool(b: bool)
    | JNumber(n: real)
    | JString(s: string)
    | JArray(items: seq<Json>)
    | JObject(fields: map<string, Json>)

  /** The `{}` literal. */
  const EmptyObject: Json := JObject(map[])

  /** JavaScript truthiness; JSON text never produces NaN. */
  predicate Truthy(j: Json) {
    match j
    case JNull => false
    case JBool(b) => b
    case JNumber(n) => n != 0.0
    case JString(s) => s != ""
    case JArray(_) => true
    case JObject(_) => true
  }

  /** Truthiness of a value that may be `undefined`. */
  predicate TruthyOpt(v: Option<Json>) {
    v.Some? && Truthy(v.value)
  }

  /**
   * `v?.key`: only an object's own fields are visible; on null, a string, a
   * number, a boolean or an array the names read here give `undefined`.
   */
  function Get(v: Option<Json>, key: string): Option<Json> {
    if v.Some? && v.value.JObject? && key in v.value.fields then Some(v.value.fields[key]) else None
  }
}
