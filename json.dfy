/** JSON values as the gateway sees them after body parsing, with the two
    pieces of JavaScript semantics the middleware relies on: truthiness
    (`if (req.body)`) and property access (`req.body.method`). */
module Json {

  datatype Option<+T> = None | Some(value: T)

  /** A parsed JSON value. Numbers are kept as exact reals; objects as a
      map from key to value (JSON.parse keeps the last of duplicate keys). */
  datatype Json =
    | JNull
    | JBool(b: bool)
    | JNumber(n: real)
    | JString(s: string)
    | JArray(items: seq<Json>)
    | JObject(fields: map<string, Json>)

  /** JavaScript truthiness of a value produced by JSON.parse:
      null, false, 0 and "" are falsy, every array and object is truthy. */
  predicate Truthy(v: Json)
  {
    match v
    case JNull => false
    case JBool(b) => b
    case JNumber(n) => n != 0.0
    case JString(s) => s != ""
    case JArray(_) => true
    case JObject(_) => true
  }

  /** `v[key]` in JavaScript: an own property of a parsed object, and
      undefined (None) for a missing key or for any value that is not an
      object. */
  function Prop(v: Json, key: string): Option<Json>
  {
    if v.JObject? && key in v.fields then Some(v.fields[key]) else None
  }

  /** The fields of an object literal whose `key` may be undefined:
      JSON serialisation drops a property whose value is undefined. */
  function WithOptional(fields: map<string, Json>, key: string, v: Option<Json>): (r: map<string, Json>)
    ensures v.Some? ==> key in r && r[key] == v.value
    ensures v.None? ==> key !in r
    ensures forall k :: k in fields && k != key ==> k in r && r[k] == fields[k]
    ensures r.Keys - {key} == fields.Keys - {key}
  {
    if v.Some? then fields[key := v.value] else fields - {key}
  }
}
