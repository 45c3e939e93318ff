/** JSON values as the web app and the gateway exchange them (request bodies,
    query results). Numbers are kept as integers. */
module Json {
  import opened Wrappers

  datatype Json =
    | JNull
    | JBool(b: bool)
    | JNumber(n: int)
    | JString(s: string)
    | JArray(items: seq<Json>)
    | JObject(fields: map<string, Json>)

  /** A JSON object: a request body, for instance. */
  type Object = map<string, Json>

  /** Property access `o[key]`; `None` stands for `undefined`. */
  function Field(o: Object, key: string): (v: Option<Json>)
    ensures v.Some? <==> key in o
    ensures v.Some? ==> v.value == o[key]
  {
    if key in o then Some(o[key]) else None
  }
}
