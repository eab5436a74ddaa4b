/** JSON values as `JSON.parse` produces them. */
module Json {

  /**
   * A parsed JSON value. Numbers are integers here; object members keep
   * the order in which they were written.
   */
  datatype Json =
    | JNull
    | JBool(b: bool)
    | JNumber(n: int)
    | JString(s: string)
    | JArray(items: seq<Json>)
    | JObject(members: seq<(string, Json)>)

  /** The empty object `{}`. */
  const EmptyObject: Json := JObject([])

  /** `typeof v === "object"`: true of `null`, of arrays and of objects. */
  predicate TypeofIsObject(v: Json)
  {
    v.JNull? || v.JArray? || v.JObject?
  }

  /** `Array.isArray(v)`. */
  predicate IsArray(v: Json)
  {
    v.JArray?
  }
}
