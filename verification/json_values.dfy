/** Decoded JSON values, as PHP's `json_decode($text, true)` hands them to the
    service: objects become associative arrays, which are modelled as maps
    from key to value. Only integral numbers are modelled. */
module JsonValues {
  import opened Wrappers

  datatype Json =
    | JNull
    | JBool(b: bool)
    | JNumber(n: int)
    | JString(str: string)
    | JArray(items: seq<Json>)
    | JObject(fields: map<string, Json>)

  /** PHP's `$value[$key]` on a decoded body: present only when `value` is an
      object that has the key. */
  function Member(value: Json, key: string): (m: Option<Json>)
    ensures m.Some? <==> value.JObject? && key in value.fields
    ensures m.Some? ==> m.value == value.fields[key]
  {
    if value.JObject? && key in value.fields then Some(value.fields[key]) else None
  }

  /** `$value[$key]` when it holds a string; `None` for a missing key and for
      any non-string member. */
  function StringMember(value: Json, key: string): (s: Option<string>)
    ensures s.Some? <==> Member(value, key).Some? && Member(value, key).value.JString?
    ensures s.Some? ==> value.fields[key] == JString(s.value)
  {
    match Member(value, key)
    case Some(JString(v)) => Some(v)
    case _ => None
  }
}
