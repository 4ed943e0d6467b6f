/** Parsed JSON documents as json.load returns them: objects become
    insertion-ordered dictionaries, arrays lists, and numbers, booleans and
    null the corresponding Python values. */
module JsonValue {
  import opened PyDict

  datatype Json =
    | JNull
    | JBool(b: bool)
    | JNum(n: real)
    | JStr(s: string)
    | JArr(items: seq<Json>)
    | JObj(fields: Dict<string, Json>)
}
