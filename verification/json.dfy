/** The JSON values a metrics backend answers with, and the three accessors the
    readiness query applies to them (`serde_json::Value::get` by key and by index,
    and `as_str`). */
module JsonValue {
  import opened Wrappers

  /** Object members are keyed uniquely, as in a decoded `serde_json::Map`. Numbers
      carry their integer value; fractional numbers never reach a string accessor. */
  datatype Json =
    | JNull
    | JBool(b: bool)
    | JNumber(n: int)
    | JString(s: string)
    | JArray(items: seq<Json>)
    | JObject(fields: map<string, Json>)

  /** `value.get(key)`: the member under `key` of an object; nothing for any other value. */
  function Get(v: Json, key: string): (r: Option<Json>)
    ensures r.Some? <==> v.JObject? && key in v.fields
    ensures r.Some? ==> r.value == v.fields[key]
  {
    match v
    case JObject(fields) => if key in fields then Some(fields[key]) else None
    case _ => None
  }

  /** `value.get(i)`: the `i`-th element of an array; nothing for any other value. */
  function At(v: Json, i: nat): (r: Option<Json>)
    ensures r.Some? <==> v.JArray? && i < |v.items|
    ensures r.Some? ==> r.value == v.items[i]
  {
    match v
    case JArray(items) => if i < |items| then Some(items[i]) else None
    case _ => None
  }

  /** `value.as_str()`: the text of a JSON string; nothing for numbers or anything else. */
  function AsStr(v: Json): (r: Option<string>)
    ensures r.Some? <==> v.JString?
    ensures r.Some? ==> r.value == v.s
  {
    match v
    case JString(s) => Some(s)
    case _ => None
  }
}
