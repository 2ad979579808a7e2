/**
 * The shape of the org.json values the router builds and reads.
 * An object is a map because `JSONObject` keeps no key order; an array is a
 * sequence because `JSONArray` does.
 */
module JsonValue {

  datatype Json =
    | JNull
    | JBool(b: bool)
    | JInt(i: int)
    | JReal(r: real)
    | JString(s: string)
    | JArray(items: seq<Json>)
    | JObject(fields: map<string, Json>)
}
