/** A JSON value, as a parsed response body. Numbers are integers: the only numbers the client
    validates are an organisation's `role` and `tier`, and a float there is not represented. */
module Payload {
  import opened Wrappers

  datatype Json =
    | JNull
    | JBool(b: bool)
    | JNumber(n: int)
    | JString(s: string)
    | JArray(items: seq<Json>)
    | JObject(fields: map<string, Json>)

  /** The member `key` of an object; `None` for a missing key or a value that is no object. */
  function Field(j: Json, key: string): Option<Json>
  {
    if j.JObject? && key in j.fields then Some(j.fields[key]) else None
  }
}
