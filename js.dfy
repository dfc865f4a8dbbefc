/** The JavaScript values the model needs: optional values, results of calls
    that may throw, and the truthiness tests the source applies to them. */
module Js {

  /** `undefined` (None) or a value. */
  datatype Option<+T> = None | Some(value: T)

  /** A call that returns a value or throws an error. */
  datatype Result<+T, +E> = Ok(value: T) | Err(error: E)

  /** Truthiness of a string that may be `undefined`: `undefined` and `""` are falsy. */
  predicate Truthy(s: Option<string>)
  {
    s.Some? && s.value != ""
  }

  /** Truthiness of a number that may be `undefined`: `undefined` and `0` are falsy. */
  predicate NumTruthy(n: Option<int>)
  {
    n.Some? && n.value != 0
  }

  /** The JavaScript expression `n || fallback` on a number that may be `undefined`. */
  function OrElse(n: Option<int>, fallback: int): int
  {
    if NumTruthy(n) then n.value else fallback
  }
}
