/**
 * The values `json.loads` produces. Decoding itself is not modelled: the
 * judge receives the decoder as a parameter.
 */
module JsonValues {

  datatype Json =
    | JNull                        // None
    | JBool(b: bool)               // True / False
    | JInt(i: int)                 // int
    | JFloat(literal: string)      // float, by the text it was read from
    | JString(s: string)           // str
    | JArray(items: seq<Json>)     // list
    | JObject(fields: map<string, Json>)  // dict (a repeated key keeps its last value)
}
