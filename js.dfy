/**
 * JavaScript's `x || fallback` on the field types the documents carry.
 * A missing field is `None`. The empty string, `0` and `false` are falsy
 * and fall back as well; an array or an object is always truthy, so only a
 * missing one falls back.
 */
module Js {
  import opened Wrappers

  predicate Truthy(o: Option<string>) {
    o.Some? && o.value != ""
  }

  /** `s || fallback` for a string field. */
  function OrString(o: Option<string>, fallback: string): (r: string)
    ensures Truthy(o) ==> r == o.value
    ensures !Truthy(o) ==> r == fallback
  {
    if Truthy(o) then o.value else fallback
  }

  /** `n || fallback` for an integer field. */
  function OrInt(o: Option<int>, fallback: int): (r: int)
    ensures o.Some? && o.value != 0 ==> r == o.value
    ensures o.None? || o.value == 0 ==> r == fallback
  {
    if o.Some? && o.value != 0 then o.value else fallback
  }

  /** `x || 0` for a numeric score; a stored 0 and the fallback coincide. */
  function OrZero(o: Option<real>): (r: real)
    ensures o.Some? ==> r == o.value
    ensures o.None? ==> r == 0.0
  {
    if o.Some? then o.value else 0.0
  }

  /** `b || false` */
  function OrFalse(o: Option<bool>): (r: bool)
    ensures r <==> o == Some(true)
  {
    o == Some(true)
  }

  /** `xs || []` for an array field: an empty array is truthy and is kept. */
  function OrEmpty<T>(o: Option<seq<T>>): (r: seq<T>)
    ensures o.Some? ==> r == o.value
    ensures o.None? ==> r == []
  {
    if o.Some? then o.value else []
  }
}
