/** The subset of `serde_json::Value` the event interpreter looks at. */
module Json {
  import opened Wrappers

  /** A parsed JSON value. Numbers keep their literal text; nothing here reads them. */
  datatype Json =
    | JNull
    | JBool(b: bool)
    | JNumber(literal: string)
    | JString(str: string)
    | JArray(items: seq<Json>)
    | JObject(fields: map<string, Json>)

  /** A JSON object viewed as `HashMap<String, Value>`. */
  type JsonMap = map<string, Json>

  /** `Value::get(key)`: a member of an object; every other value has no members. */
  function Get(v: Json, key: string): Option<Json> {
    if v.JObject? && key in v.fields then Some(v.fields[key]) else None
  }

  /** `v.get(key).and_then(|v| v.as_str())`. */
  function GetString(v: Json, key: string): Option<string> {
    match Get(v, key)
    case Some(JString(s)) => Some(s)
    case _ => None
  }

  /** `v.get(key).and_then(|v| v.as_object())`. */
  function GetObject(v: Json, key: string): Option<JsonMap> {
    match Get(v, key)
    case Some(JObject(m)) => Some(m)
    case _ => None
  }

  /** `serde_json::from_value::<HashMap<String, Value>>`: succeeds exactly on objects. */
  function ToMap(v: Json): Option<JsonMap> {
    if v.JObject? then Some(v.fields) else None
  }
}
