// Decoded JSON values as the log tools see them, with the dictionary
// lookups of Python that they use.
module JsonValues {
  import opened Wrappers

  datatype Json =
    | JNull
    | JBool(b: bool)
    | JInt(i: int)
    | JStr(s: string)
    | JList(items: seq<Json>)
    | JObject(fields: map<string, Json>)

  type Object = map<string, Json>

  /** Python truthiness of a decoded JSON value. */
  predicate Truthy(v: Json)
  {
    match v
    case JNull => false
    case JBool(b) => b
    case JInt(i) => i != 0
    case JStr(s) => s != ""
    case JList(items) => items != []
    case JObject(fields) => fields != map[]
  }

  /** `obj.get(key, default)` for a text field; a non-text value reads as absent. */
  function GetText(obj: Object, key: string, default: string): string
  {
    if key in obj && obj[key].JStr? then obj[key].s else default
  }

  /** `obj.get(key)` for a text field: `None` when absent, null or not text. */
  function GetOptText(obj: Object, key: string): Option<string>
  {
    if key in obj && obj[key].JStr? then Some(obj[key].s) else None
  }

  /** `obj.get(key)`: `None` when absent or null. */
  function GetOpt(obj: Object, key: string): Option<Json>
  {
    if key in obj && obj[key] != JNull then Some(obj[key]) else None
  }
}
