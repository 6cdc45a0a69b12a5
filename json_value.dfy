/**
 * Decoded JSON values as the dashboard sees them after `json.loads`, and the
 * two outcomes of decoding a raw message. The decoder itself is not modelled:
 * callers pass it in as a function from text to `Decoded`.
 */
module JsonValue {

  /** A Python value produced by `json.loads`. Numbers keep Python's int/float split. */
  datatype Json =
    | JNull
    | JBool(b: bool)
    | JInt(i: int)
    | JFloat(f: real)
    | JString(s: string)
    | JArray(items: seq<Json>)
    | JObject(fields: map<string, Json>)

  /** `json.loads(raw)` either raises (Malformed) or returns a value of any JSON kind. */
  datatype Decoded = Malformed | Parsed(value: Json)

  /** Python's `dict.get(key, default)` on a decoded object. */
  function Get(obj: map<string, Json>, key: string, default: Json): (r: Json)
    ensures key in obj ==> r == obj[key]
    ensures key !in obj ==> r == default
  {
    if key in obj then obj[key] else default
  }
}
