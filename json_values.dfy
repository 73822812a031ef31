/** JSON values as the web client sees them after parsing, with the
    JavaScript truthiness and property access the client relies on.
    Numbers are integers here. */
module JsonValues {
  import opened Results

  datatype Json =
    | JNull
    | JBool(b: bool)
    | JNumber(n: int)
    | JString(s: string)
    | JArray(items: seq<Json>)
    | JObject(members: map<string, Json>)

  /** JavaScript truthiness: null, false, 0 and "" are falsy; every array
      and object is truthy. */
  predicate Truthy(j: Json)
  {
    match j
    case JNull => false
    case JBool(b) => b
    case JNumber(n) => n != 0
    case JString(s) => s != ""
    case JArray(_) => true
    case JObject(_) => true
  }

  /** `j[key]` on a non-null value: an object's own member, or undefined
      (None). The keys the client reads (`result`, `capabilities`,
      `streaming`, `pushNotifications`) name no property of arrays or
      primitives. */
  function Property(j: Json, key: string): (r: Option<Json>)
    ensures r.Some? <==> j.JObject? && key in j.members
    ensures r.Some? ==> r.value == j.members[key]
  {
    if j.JObject? && key in j.members then Some(j.members[key]) else None
  }

  /** `v?.key`: undefined when `v` is undefined or null. */
  function OptionalProperty(v: Option<Json>, key: string): (r: Option<Json>)
    ensures v.None? || v == Some(JNull) ==> r.None?
    ensures v.Some? && v.value != JNull ==> r == Property(v.value, key)
  {
    if v.None? || v.value.JNull? then None else Property(v.value, key)
  }

  /** The message of the TypeError that `'result' in v` raises on null and
      on primitives; its exact wording belongs to the JavaScript engine. */
  const InOperatorError: string := "Cannot use 'in' operator to search for 'result'"

  /** `'result' in v && v.result ? v.result : null`: the truthy `result`
      member, none, or the TypeError of the `in` operator. */
  function ResultMember(v: Json): (r: Result<Option<Json>, string>)
    ensures r.Failure? <==> !(v.JObject? || v.JArray?)
    ensures r.Failure? ==> r.error == InOperatorError
    ensures r.Success? && r.value.Some? <==> v.JObject? && "result" in v.members && Truthy(v.members["result"])
    ensures r.Success? && r.value.Some? ==> r.value.value == v.members["result"]
  {
    match v
    case JObject(m) => if "result" in m && Truthy(m["result"]) then Success(Some(m["result"])) else Success(None)
    case JArray(_) => Success(None)
    case _ => Failure(InOperatorError)
  }

  /** `!!v` with undefined as None. */
  predicate DoubleNot(v: Option<Json>)
  {
    v.Some? && Truthy(v.value)
  }
}
