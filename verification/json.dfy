/**
 * The part of `serde_json::Value` the system relies on: a JSON value whose
 * objects are maps from member names to values, and the lookup helpers
 * `value[key]`, `value[index]`, `as_str`, `as_bool` and `as_u64`.
 * Numbers are split into integers and other numbers; `f32`/`f64` are exact
 * reals here.
 */
module Json {
  import opened Base

  datatype Json =
    | JNull
    | JBool(b: bool)
    | JInt(i: int)
    | JReal(r: real)
    | JStr(s: string)
    | JArr(items: seq<Json>)
    | JObj(fields: map<string, Json>)

  const U64Limit: int := 0x1_0000_0000_0000_0000

  /** `value[key]`: the member, or `Null` when the value is not an object or
      has no such member. */
  function Get(j: Json, key: string): (r: Json)
    ensures j.JObj? && key in j.fields ==> r == j.fields[key]
    ensures !(j.JObj? && key in j.fields) ==> r == JNull
  {
    if j.JObj? && key in j.fields then j.fields[key] else JNull
  }

  /** `value[index]`: the element, or `Null` when the value is not an array or
      is too short. */
  function At(j: Json, index: nat): (r: Json)
    ensures j.JArr? && index < |j.items| ==> r == j.items[index]
    ensures !(j.JArr? && index < |j.items|) ==> r == JNull
  {
    if j.JArr? && index < |j.items| then j.items[index] else JNull
  }

  function AsStr(j: Json): (r: Option<string>)
    ensures r.Some? <==> j.JStr?
    ensures r.Some? ==> r.value == j.s
  {
    if j.JStr? then Some(j.s) else None
  }

  function AsBool(j: Json): (r: Option<bool>)
    ensures r.Some? <==> j.JBool?
    ensures r.Some? ==> r.value == j.b
  {
    if j.JBool? then Some(j.b) else None
  }

  /** `as_u64`: integers in the unsigned 64-bit range only. */
  function AsU64(j: Json): (r: Option<nat>)
    ensures r.Some? <==> j.JInt? && 0 <= j.i < U64Limit
    ensures r.Some? ==> r.value == j.i && r.value < U64Limit
  {
    if j.JInt? && 0 <= j.i < U64Limit then Some(j.i as nat) else None
  }

  /** Whether `key` is a member of the object `j`. */
  predicate Has(j: Json, key: string) {
    j.JObj? && key in j.fields
  }
}
