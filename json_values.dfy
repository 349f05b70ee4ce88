/** JSON-like values: the `Any` payloads of the source (result dictionaries, metric
    parameters, trace and context dictionaries). */
module JsonValues {

  datatype Json =
    | JNull
    | JBool(b: bool)
    | JNum(x: real)
    | JStr(s: string)
    | JList(items: seq<Json>)
    | JObject(fields: map<string, Json>)

  /** A `dict[str, Any]`. */
  type Record = map<string, Json>

  /** `d.get(key, default)`. */
  function GetOr(d: Record, key: string, default: Json): (r: Json)
    ensures key in d ==> r == d[key]
    ensures key !in d ==> r == default
  {
    if key in d then d[key] else default
  }
}
