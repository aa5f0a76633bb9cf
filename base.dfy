/** Values shared by every page: an optional value, and the JavaScript notion of
    "truthy" for the few kinds of value the pages test with `!x` or `x || y`. */
module Base {

  datatype Option<+T> = None | Some(value: T)

  /** The outcome of a request whose failure carries more than a message. */
  datatype Result<+T, +E> = Success(value: T) | Failure(error: E)

  /** A record identifier as the server sends it.  The pages test identifiers
      with `!id`, which is true for `null` and for the number 0. */
  type Id = int

  /** `!!id` for an identifier held in state that starts out as `null`. */
  predicate Present(id: Option<Id>)
  {
    id.Some? && id.value != 0
  }

  /** `a || b` where `a` may be `undefined` and both are strings. */
  function OrElse(a: Option<string>, b: string): string
  {
    if a.Some? && a.value != "" then a.value else b
  }
}
