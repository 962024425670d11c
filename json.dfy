/** JSON-compatible values, as handed to and received from the external codec. */
module Json {

  /**
   * A decoded JSON document. Numbers are kept as their source text because
   * floating-point arithmetic is not part of this model.
   */
  datatype Json =
    | JNull
    | JBool(b: bool)
    | JNumber(literal: string)
    | JString(s: string)
    | JArray(items: seq<Json>)
    | JObject(fields: map<string, Json>)
}
