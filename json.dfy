/** The decoded JSON values that travel as a summary's metadata. */
module Json {
  import opened Wrappers

  datatype Json =
    | JNull
    | JBool(b: bool)
    | JInt(i: int)
    | JFloat(f: real)
    | JString(s: string)
    | JArray(items: seq<Json>)
    | JObject(fields: map<string, Json>)

  /** `json.loads(text)`: what the decoder makes of a text. */
  datatype Decoded =
    | Value(value: Json)
    | SyntaxError              // json.JSONDecodeError, which the parser catches
    | Crash(message: string)   // any other exception, which propagates

  type Decoder = string -> Decoded

  /**
   * `d[key] = value` on a decoded value: only a JSON object supports item
   * assignment; on anything else Python raises TypeError (`None` here).
   */
  function SetKey(d: Json, key: string, value: Json): (r: Option<Json>)
    ensures r.Some? <==> d.JObject?
    ensures r.Some? ==> r.value.JObject? && r.value.fields.Keys == d.fields.Keys + {key}
    ensures r.Some? ==> r.value.fields[key] == value
    ensures r.Some? ==> forall k :: k in d.fields && k != key ==> r.value.fields[k] == d.fields[k]
  {
    match d
    case JObject(fields) => Some(JObject(fields[key := value]))
    case _ => None
  }
}
