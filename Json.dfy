/** JSON values as they travel between the adapter and the remote store.
    Numbers are modelled as reals; object members as a map from key to value
    (member order is not observable in this model). */
module Json {
  datatype Json =
    | JNull
    | JBool(b: bool)
    | JNumber(n: real)
    | JString(str: string)
    | JArray(items: seq<Json>)
    | JObject(fields: map<string, Json>)

  /** The empty object `{}`. */
  const EmptyObject: Json := JObject(map[])
}
