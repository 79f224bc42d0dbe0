/** JavaScript value conventions the components rely on: `undefined` for an
    absent optional field, and the falsiness of the empty string in `x || y`. */
module Js {

  /** An optional value: `None` stands for JavaScript's `undefined` (or `null`). */
  datatype Option<+T> = None | Some(value: T)

  /** `s || undefined` for a string `s`: the empty string is falsy and becomes absent. */
  function OrUndefined(s: string): (r: Option<string>)
    ensures r == None <==> s == ""
    ensures r.Some? ==> r.value == s
  {
    if s == "" then None else Some(s)
  }

  /** `o || undefined` for an optional string: absent and empty both become absent. */
  function OptionalOrUndefined(o: Option<string>): (r: Option<string>)
    ensures r.Some? <==> o.Some? && o.value != ""
    ensures r.Some? ==> r == o
  {
    match o
    case None => None
    case Some(s) => OrUndefined(s)
  }

  /** `o || fallback` for an optional string: the fallback replaces an absent or empty value. */
  function OrElse(o: Option<string>, fallback: string): (r: string)
    ensures o.Some? && o.value != "" ==> r == o.value
    ensures o.None? || o.value == "" ==> r == fallback
  {
    match o
    case Some(s) => if s != "" then s else fallback
    case None => fallback
  }

  /** Reads an optional string parameter back: absent reads as the empty string. */
  function OrEmpty(o: Option<string>): string
  {
    match o
    case None => ""
    case Some(s) => s
  }

  /** Reading back what OrUndefined produced gives the original string: no filter value is lost. */
  lemma OrUndefinedRoundTrip(s: string)
    ensures OrEmpty(OrUndefined(s)) == s
  {
  }

  /** Normalising twice is normalising once. */
  lemma OptionalOrUndefinedIdempotent(o: Option<string>)
    ensures OptionalOrUndefined(OptionalOrUndefined(o)) == OptionalOrUndefined(o)
  {
  }
}
