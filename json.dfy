/** JSON values, as Firestore documents and the AI service's structured replies carry them. */
module JsonValues {
  import opened Wrappers

  /** A JSON value. Numbers are kept integral: no floating-point field is read here. */
  datatype Json =
    | JNull
    | JBool(b: bool)
    | JNumber(n: int)
    | JString(s: string)
    | JArray(items: seq<Json>)
    | JObject(fields: map<string, Json>)

  /** The string under `key`: what a zod `z.string()` field accepts (a missing key is `undefined`). */
  function StringField(fields: map<string, Json>, key: string): (r: Option<string>)
    ensures r.Some? <==> key in fields && fields[key].JString?
    ensures r.Some? ==> fields[key] == JString(r.value)
  {
    if key in fields && fields[key].JString? then Some(fields[key].s) else None
  }
}
