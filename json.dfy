/** JSON values as the modelled code sees them after json.loads, and the
    Python notions it applies to them (truthiness, dict.get). */
module JsonValues {
  import opened Wrappers

  /** A decoded JSON value; numbers are integers only. */
  datatype Json =
    | JNull
    | JBool(b: bool)
    | JNumber(n: int)
    | JString(s: string)
    | JArray(items: seq<Json>)
    | JObject(fields: map<string, Json>)

  type JsonObject = map<string, Json>

  /** json.loads, an external partial function: None is a JSONDecodeError.
      Only texts whose top-level value is an object are modelled. */
  type Decoder = string -> Option<JsonObject>

  /** Python truthiness of a decoded value. */
  predicate Truthy(j: Json) {
    match j
    case JNull => false
    case JBool(b) => b
    case JNumber(n) => n != 0
    case JString(s) => s != ""
    case JArray(items) => items != []
    case JObject(fields) => fields != map[]
  }

  /** dict.get(key, default). */
  function Get(obj: JsonObject, key: string, default: Json): (r: Json)
    ensures key in obj ==> r == obj[key]
    ensures key !in obj ==> r == default
  {
    if key in obj then obj[key] else default
  }
}
