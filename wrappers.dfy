/** Small value wrappers shared by every page model. */
module Wrappers {

  /** A value that may be absent: a JSON `null`/`undefined`, or an empty form field. */
  datatype Option<+T> = None | Some(value: T)

  /** The outcome of one REST round trip, as the calling handler sees it:
      the response body, or the failure that the `catch` block receives. */
  datatype Outcome<+T> = Success(data: T) | Failure(cause: string)

  /** JavaScript truthiness of an optional number: `null`, `undefined` and `0` are falsy. */
  predicate Truthy(x: Option<real>)
  {
    x.Some? && x.value != 0.0
  }

  /** `x || 0` for an optional number. */
  function OrZero(x: Option<real>): (r: real)
    ensures Truthy(x) ==> r == x.value
    ensures !Truthy(x) ==> r == 0.0
  {
    if x.Some? then x.value else 0.0
  }

  function Min(a: int, b: int): int
  {
    if a <= b then a else b
  }

  function Max(a: int, b: int): int
  {
    if a <= b then b else a
  }

  /** `response.data || []` for a list body. */
  function OrEmpty<T>(body: Option<seq<T>>): (r: seq<T>)
    ensures body.Some? ==> r == body.value
    ensures body.None? ==> r == []
  {
    if body.Some? then body.value else []
  }
}
