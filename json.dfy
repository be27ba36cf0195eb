// JSON values as serde_json represents them (`serde_json::Value`), with
// the two accessors the persistence layers and handlers use. Printing and
// parsing JSON text are a parameter (`JsonText`); only the property that
// parsing gives back what was printed is assumed of them, and only where a
// lemma names it.

module JsonValues {
  import opened Common

  datatype Json =
    | JNull
    | JBool(b: bool)
    | JNumber(n: int)
    | JString(s: string)
    | JArray(items: seq<Json>)
    | JObject(fields: map<string, Json>)

  /// `Value::get(key)`: the field of an object, and nothing for any other
  /// kind of value.
  function Get(v: Json, key: string): (r: Option<Json>)
    ensures r.Some? <==> v.JObject? && key in v.fields
    ensures r.Some? ==> r.value == v.fields[key]
  {
    if v.JObject? && key in v.fields then Some(v.fields[key]) else None
  }

  /// `Value::as_str`: the text of a string value only.
  function AsStr(v: Json): (r: Option<string>)
    ensures r.Some? <==> v.JString?
    ensures r.Some? ==> r.value == v.s
  {
    if v.JString? then Some(v.s) else None
  }

  /// `Value::to_string` and `serde_json::from_str::<Value>(..).ok()`.
  datatype JsonText = JsonText(render: Json -> string, parse: string -> Option<Json>)

  ghost predicate Faithful(t: JsonText)
  {
    forall v :: t.parse(t.render(v)) == Some(v)
  }
}
