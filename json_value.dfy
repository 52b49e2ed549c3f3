/**
 * An already-parsed JSON document, as the text parser hands it to the
 * derived decoder: objects keep their entries in document order, duplicate
 * keys included, because the decoder sees every entry one at a time.
 */
module JsonValue {

  datatype Json =
    | Null
    | Bool(b: bool)
    | Number(n: int)
    | Str(s: string)
    | Array(items: seq<Json>)
    | Object(entries: seq<(string, Json)>)
}
