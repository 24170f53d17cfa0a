/** JavaScript values as far as the core sees them: nullable results, thrown exceptions,
    JSON values with their truthiness, and property access on a parsed JSON value. */
module JsValue {

  /** A value that may be `null` (or, for a property read, `undefined`). */
  datatype Option<+T> = None | Some(value: T)

  /** What a `throw` can throw: an `Error` object with its message, or any other value. */
  datatype Exception = Error(message: string) | NonErrorValue

  /** The completion of a JavaScript call: it returns a value or throws. */
  datatype Completion<+T> = Normal(value: T) | Throw(exception: Exception)

  /** A value `JSON.parse` can produce. Numbers are exact reals, so `-0` is `0`. */
  datatype Json =
    | JNull
    | JBool(b: bool)
    | JNumber(n: real)
    | JString(s: string)
    | JArray(items: seq<Json>)
    | JObject(members: map<string, Json>)

  /** A nullable string is truthy when it is present and not the empty string. */
  predicate IsTruthy(s: Option<string>) {
    s.Some? && s.value != ""
  }

  /** JavaScript truthiness of a property read; `None` is `undefined`. */
  predicate Truthy(v: Option<Json>) {
    match v
    case None => false
    case Some(JNull) => false
    case Some(JBool(b)) => b
    case Some(JNumber(n)) => n != 0.0
    case Some(JString(s)) => s != ""
    case Some(JArray(_)) => true
    case Some(JObject(_)) => true
  }

  /** The property names the file-record check reads. None of them is an array index, `length`,
      or a property of the Object, Array, String, Number or Boolean prototypes. */
  const FileRecordKeys: set<string> := {"type", "name", "content"}

  /** `v[key]` for one of the file-record keys: reading a property of `null` throws a
      TypeError, an object yields its own member or `undefined`, any other value `undefined`. */
  function GetProperty(v: Json, key: string): (r: Completion<Option<Json>>)
    requires key in FileRecordKeys
    ensures r.Throw? <==> v.JNull?
    ensures r.Throw? ==> r.exception.Error?
    ensures r.Normal? && r.value.Some? ==> v.JObject? && key in v.members && r.value.value == v.members[key]
    ensures v.JObject? && key in v.members ==> r == Normal(Some(v.members[key]))
  {
    match v
    case JNull => Throw(Error("Cannot read properties of null (reading '" + key + "')"))
    case JObject(members) => Normal(if key in members then Some(members[key]) else None)
    case _ => Normal(None)
  }
}
