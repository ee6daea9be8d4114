/** A decoded JSON value, as Python's `json` module hands it to the client. */
module JsonValue {

  /** JSON numbers are kept as reals, so that `0`, `0.0` compare as Python compares them. */
  datatype Json =
    | JNull
    | JBool(b: bool)
    | JNum(n: real)
    | JStr(s: string)
    | JArr(items: seq<Json>)
    | JObj(fields: map<string, Json>)

  /** Python truthiness of a decoded value (`if data:`). */
  predicate Truthy(j: Json)
  {
    match j
    case JNull => false
    case JBool(b) => b
    case JNum(n) => n != 0.0
    case JStr(s) => s != ""
    case JArr(items) => items != []
    case JObj(fields) => fields != map[]
  }

  /** Python's `j == 0`: true for the number zero and for `False`. */
  predicate EqualsZero(j: Json)
  {
    j == JNum(0.0) || j == JBool(false)
  }
}
