/**
 * Decoded JSON as the device's HTTP endpoints deliver it, after Python's `json`
 * module has turned the body text into Python values (decoding the text itself
 * is not part of this model).
 */
module JsonValue {
  import opened Wrappers

  /** A JSON integer literal decodes to a Python int, one with a fraction or
      exponent to a float (kept here as an exact real). */
  datatype Json =
    | JNull
    | JBool(b: bool)
    | JInt(i: int)
    | JFloat(r: real)
    | JString(s: string)
    | JArray(items: seq<Json>)
    | JObject(fields: map<string, Json>)

  /** Python `d.get(key)` on a dict: None when the key is absent. */
  function Lookup(fields: map<string, Json>, key: string): Option<Json>
  {
    if key in fields then Some(fields[key]) else None
  }

  /** Python `d.get(key, default)` on a dict. */
  function GetOr(fields: map<string, Json>, key: string, default: Json): Json
  {
    if key in fields then fields[key] else default
  }

  /** Python's `raw is None` after `raw = d.get(key)`: absent key or JSON null. */
  predicate IsNone(raw: Option<Json>)
  {
    raw.None? || raw.value.JNull?
  }

  /** The value at a path of object keys, None when a key is missing or a step is not an object. */
  function At(j: Json, path: seq<string>): Option<Json>
    decreases |path|
  {
    if path == [] then Some(j)
    else if j.JObject? && path[0] in j.fields then At(j.fields[path[0]], path[1..])
    else None
  }

  /** Absent, or present and a JSON object: what `.get(k, {})` can be followed by `.get` on. */
  predicate AbsentOrObject(v: Option<Json>)
  {
    v.None? || v.value.JObject?
  }
}
