/**
 * Decoded JSON values, as Python's json module hands them to the program.
 * Python's None and JSON null are the same value, so a missing key read with
 * dict.get is JNull.
 */
module Json {

  datatype Json =
    | JNull
    | JBool(b: bool)
    | JInt(i: int)
    | JString(str: string)
    | JArray(items: seq<Json>)
    | JObject(fields: map<string, Json>)

  /**
   * The outcome of decoding one text message. Decoding itself (json.loads) is
   * not modelled: each message arrives already decoded, or with the reason the
   * decoder gave for rejecting it.
   */
  datatype Decoded = Parsed(value: Json) | Malformed(reason: string)

  /** Python's `d.get(key)`: the value under `key`, or None when it is absent. */
  function Get(d: map<string, Json>, key: string): Json
  {
    if key in d then d[key] else JNull
  }

  /** Python's `isinstance(v, int)`, which also holds of the booleans. */
  predicate IsIntInstance(v: Json)
  {
    v.JInt? || v.JBool?
  }
}
