/** Decoded JSON documents, as the stores, the input records and the model configuration hold them. */
module Json {

  datatype Json =
    | JNull
    | JBool(boolean: bool)
    | JNum(number: real)
    | JStr(str: string)
    | JArr(items: seq<Json>)
    | JObj(fields: map<string, Json>)

  /** Python truthiness of a decoded value: `if not values` rejects exactly the values this is false of. */
  predicate Truthy(j: Json) {
    match j
    case JNull => false
    case JBool(b) => b
    case JNum(x) => x != 0.0
    case JStr(s) => s != ""
    case JArr(a) => a != []
    case JObj(m) => m != map[]
  }

  /** Values Python multiplies arithmetically: numbers, and booleans (a subclass of int). */
  predicate IsNumeric(j: Json) {
    j.JNum? || j.JBool?
  }

  function AsReal(j: Json): real
    requires IsNumeric(j)
  {
    if j.JNum? then j.number else if j.boolean then 1.0 else 0.0
  }
}
