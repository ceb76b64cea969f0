/** The values `json.load` produces (floats aside), with Python's truthiness and the
    two-level `d[section][key]` lookups the tools perform on them. */
module Json {
  import opened Wrappers

  datatype Json =
    | JNull
    | JBool(b: bool)
    | JInt(i: int)
    | JStr(s: string)
    | JArray(items: seq<Json>)
    | JObject(fields: map<string, Json>)

  /** `bool(v)` in Python. */
  predicate Truthy(v: Json) {
    match v
    case JNull => false
    case JBool(b) => b
    case JInt(i) => i != 0
    case JStr(s) => s != ""
    case JArray(xs) => xs != []
    case JObject(m) => |m| > 0
  }

  /** `d[section][key]`; None where Python raises (a missing key, or a section that is not an
      object). */
  function Member(d: map<string, Json>, section: string, key: string): Option<Json> {
    if section in d && d[section].JObject? && key in d[section].fields
    then Some(d[section].fields[key])
    else None
  }
}
