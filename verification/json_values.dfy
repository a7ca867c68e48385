/** The JSON-shaped Python values the backend passes around: match records,
    tool schemas, tool arguments. Objects are maps, so key order (which only
    affects the abstract serialiser) is not modelled. */
module JsonValues {

  datatype Json =
    | JNull
    | JBool(b: bool)
    | JInt(i: int)
    | JStr(s: string)
    | JArr(items: seq<Json>)
    | JObj(fields: map<string, Json>)

  /** The empty object `{}`. */
  const EmptyObject: Json := JObj(map[])

  /** The empty list `[]`. */
  const EmptyList: Json := JArr([])

  /** `d.get(key, default)` on a Python dict. */
  function Lookup(d: map<string, Json>, key: string, default: Json): (v: Json)
    ensures key in d ==> v == d[key]
    ensures key !in d ==> v == default
  {
    if key in d then d[key] else default
  }

  /** Python truthiness of a JSON value: `None`, `False`, `0`, `""`, `[]`, `{}` are false. */
  predicate Truthy(v: Json) {
    match v
    case JNull => false
    case JBool(b) => b
    case JInt(i) => i != 0
    case JStr(s) => s != ""
    case JArr(items) => items != []
    case JObj(fields) => fields != map[]
  }
}
