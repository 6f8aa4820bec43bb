/**
 * JSON values as they arrive in a parsed request body. A request body is a
 * JSON object, i.e. a map from member names to values; a member that is not
 * in the map is absent (`undefined` in the source).
 */
module JsonValues {

  datatype Json =
    | JNull
    | JBool(b: bool)
    | JNum(n: int)
    | JStr(s: string)
    | JArr(items: seq<Json>)
    | JObj(members: map<string, Json>)

  /** A parsed JSON request body. */
  type Body = map<string, Json>
}
