/** Parsed JSON responses of the exchange API, and the Python truthiness rules
    the calculator applies to them. */
module Responses {

  /** A JSON object as the fetcher returns it: field name to numeric value.
      A failed request (transport error, HTTP error status) yields the empty map. */
  type Response = map<string, real>

  /** The empty response: what a failed request returns. */
  const Failed: Response := map[]

  /** `m.get(key, default)`: the field's value when present, the default otherwise. */
  function Get(m: Response, key: string, default: real): (r: real)
    ensures key in m ==> r == m[key]
    ensures key !in m ==> r == default
  {
    if key in m then m[key] else default
  }

  /** Every field of the response holds a non-negative number. */
  predicate NonNegative(m: Response)
  {
    forall key :: key in m ==> m[key] >= 0.0
  }

  datatype Option<+T> = None | Some(value: T)

  /** Truthiness of an `Optional[str]`: `None` and the empty string are falsy. */
  predicate Truthy(s: Option<string>): (b: bool)
    ensures s == None || s == Some("") ==> !b
    ensures s.Some? && |s.value| > 0 ==> b
  {
    s.Some? && s.value != ""
  }
}
