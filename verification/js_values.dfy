/**
 The few JavaScript value rules the modelled components rely on: a value that
 may be `undefined`, the truthiness of strings, and the `||` operator.
 */
module JsValues {

  /** `undefined` (None) or a defined value. */
  datatype Option<+T> = None | Some(value: T)

  /** A possibly-undefined string is truthy when it is defined and non-empty. */
  predicate Truthy(s: Option<string>) {
    s.Some? && s.value != ""
  }

  /** `a || b` for a possibly-undefined string `a` and a string `b`. */
  function Or(a: Option<string>, b: string): (r: string)
    ensures Truthy(a) ==> r == a.value
    ensures !Truthy(a) ==> r == b
  {
    if Truthy(a) then a.value else b
  }

  /** `s || undefined`: an empty string becomes `undefined`. */
  function OrUndefined(s: string): (r: Option<string>)
    ensures r.None? <==> s == ""
    ensures r.Some? ==> r.value == s
  {
    if s == "" then None else Some(s)
  }

  /** The values `process.env` lookups and the `as string` cast can produce at run time. */
  datatype JsValue = Undefined | JsString(s: string)

  /** The `typeof` operator on those values. */
  function TypeOf(v: JsValue): string {
    match v
    case Undefined => "undefined"
    case JsString(_) => "string"
  }
}
