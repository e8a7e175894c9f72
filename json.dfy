/** JSON values at the level of decoded Python objects (dicts, lists, strings, integers). */
module Json {

  /** A decoded JSON value. Floating-point numbers are not part of this model. */
  datatype Json =
    | JNull
    | JBool(b: bool)
    | JInt(i: int)
    | JStr(s: string)
    | JList(items: seq<Json>)
    | JObj(fields: map<string, Json>)

  /** A decoded JSON object, the Python `dict` that `json.loads` returns. */
  type JsonObject = map<string, Json>
}
