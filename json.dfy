/** The JSON values the AI returns once parsed, and the few JavaScript operations the
    document pipeline applies to them: truthiness, field access, `?.length` and `||`. */
module Json {
  import opened Wrappers

  /** A parsed JSON value; numbers are kept whole. */
  datatype Json =
    | JNull
    | JBool(b: bool)
    | JNumber(n: int)
    | JString(s: string)
    | JArray(items: seq<Json>)
    | JObject(fields: map<string, Json>)

  /** JavaScript truthiness: `null`, `false`, `0` and `""` are falsy. */
  predicate Truthy(v: Json)
  {
    match v
    case JNull => false
    case JBool(b) => b
    case JNumber(n) => n != 0
    case JString(s) => s != ""
    case _ => true
  }

  /** Truthiness of a value that may be `undefined`. */
  predicate TruthyOption(v: Option<Json>)
  {
    v.Some? && Truthy(v.value)
  }

  /** `v.name`: an object's own field, and `undefined` on anything else. */
  function Field(v: Json, name: string): (r: Option<Json>)
    ensures r.Some? <==> v.JObject? && name in v.fields
    ensures r.Some? ==> r.value == v.fields[name]
  {
    if v.JObject? && name in v.fields then Some(v.fields[name]) else None
  }

  /** `x?.length`: the length of an array or a string, an object's own `length` field,
      and `undefined` otherwise. */
  function LengthOf(x: Option<Json>): (r: Option<Json>)
    ensures x.Some? && x.value.JArray? ==> r == Some(JNumber(|x.value.items|))
    ensures x.Some? && x.value.JString? ==> r == Some(JNumber(|x.value.s|))
    ensures x.None? ==> r.None?
  {
    if x.None? then None
    else match x.value
      case JArray(items) => Some(JNumber(|items|))
      case JString(s) => Some(JNumber(|s|))
      case JObject(_) => Field(x.value, "length")
      case _ => None
  }

  /** `x || fallback`. */
  function OrElse(x: Option<Json>, fallback: Json): (r: Json)
    ensures TruthyOption(x) ==> r == x.value
    ensures !TruthyOption(x) ==> r == fallback
  {
    if TruthyOption(x) then x.value else fallback
  }
}
