/** JSON values as the add-on receives them in request bodies and keeps them
    in its configuration file, with the two Python operations the handlers
    apply to them: truthiness (`all([...])`, `if not x`) and the `in` operator. */
module JsonValues {
  import opened Text
  import opened Wrappers

  /** A decoded JSON document. Numbers are integers (see README). */
  datatype Json =
    | JNull
    | JBool(b: bool)
    | JNum(n: int)
    | JStr(s: string)
    | JArray(items: seq<Json>)
    | JObject(fields: map<string, Json>)

  /** Python truthiness of the decoded value: None, False, 0, "", [] and {} are false. */
  predicate Truthy(v: Json)
  {
    match v
    case JNull => false
    case JBool(b) => b
    case JNum(n) => n != 0
    case JStr(s) => s != ""
    case JArray(items) => items != []
    case JObject(fields) => fields != map[]
  }

  /** `d.get(key)` on a decoded object: the value, or None when the key is absent. */
  function Get(fields: map<string, Json>, key: string): (v: Json)
    ensures key !in fields ==> v == JNull
    ensures key in fields ==> v == fields[key]
  {
    if key in fields then fields[key] else JNull
  }

  /** `d.get(key, default)`. */
  function GetOr(fields: map<string, Json>, key: string, default: Json): (v: Json)
    ensures key !in fields ==> v == default
    ensures key in fields ==> v == fields[key]
  {
    if key in fields then fields[key] else default
  }

  /** Python `key in data` for a string key: a dict tests its keys, a list its
      elements, a string its substrings; on None, a bool or a number Python raises
      TypeError, written here as None. */
  function Member(key: string, data: Json): (r: Option<bool>)
    ensures r.None? <==> (data.JNull? || data.JBool? || data.JNum?)
    ensures data.JObject? ==> r == Some(key in data.fields)
    ensures data.JArray? ==> r == Some(exists i :: 0 <= i < |data.items| && data.items[i] == JStr(key))
    ensures data.JStr? ==> r == Some(exists i :: OccursAt(key, data.s, i))
  {
    match data
    case JObject(fields) => Some(key in fields)
    case JArray(items) => Some(JStr(key) in items)
    case JStr(s) => OccursIffBlock(key, s); Some(Occurs(key, s))
    case _ => None
  }
}
