/**
 * The JSON values that travel between the client and the graph database
 * server: request bodies are built as these values and responses are
 * received as these values (their text serialisation is not modelled).
 */
module JsonValues {

  datatype Json =
    | JNull
    | JBool(b: bool)
    | JInt(i: int)
    | JString(str: string)
    | JArray(items: seq<Json>)
    | JObject(fields: map<string, Json>)
}
