/**
 A decoded JSON document, as the upstream client hands it to the handlers,
 and the two Python idioms the handlers apply to it: truthiness (`if not data`)
 and `dict.get`.
 */
module Json {

  /** JSON numbers are kept as mathematical reals; see README for what that leaves out. */
  datatype Json =
    | JNull
    | JBool(b: bool)
    | JNum(n: real)
    | JStr(s: string)
    | JArr(items: seq<Json>)
    | JObj(fields: map<string, Json>)

  /** Python truthiness of a decoded value: null, false, zero and empty containers are falsy. */
  predicate Truthy(j: Json) {
    match j
    case JNull => false
    case JBool(b) => b
    case JNum(n) => n != 0.0
    case JStr(s) => s != ""
    case JArr(items) => items != []
    case JObj(fields) => fields != map[]
  }

  /** `d.get(key)`: the value stored under `key`, or null when the key is missing. */
  function Get(d: map<string, Json>, key: string): Json {
    if key in d then d[key] else JNull
  }
}
