/** Option and Result, the two failure-carrying shapes used by the adapters. */
module Wrappers {

  /** A value that may be absent: Python's `None` is `None`, anything else `Some`. */
  datatype Option<+T> = None | Some(value: T) {
    function GetOr(default: T): T {
      match this
      case Some(v) => v
      case None => default
    }
  }

  /** The result of an operation that may raise: `Failure` carries what was raised. */
  datatype Result<+R, +E> = Success(value: R) | Failure(error: E)

  /** Python truthiness of an optional string: `None` and `""` are false. */
  predicate IsTruthy(o: Option<string>) {
    o.Some? && o.value != ""
  }

  /** Python's `o or default` for an optional string. */
  function OrElse(o: Option<string>, default: string): (r: string)
    ensures IsTruthy(o) ==> r == o.value
    ensures !IsTruthy(o) ==> r == default
  {
    if IsTruthy(o) then o.value else default
  }
}
