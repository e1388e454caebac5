/** What the services share: a missing value, an operation that answers or refuses, JWT expiry, the larger of two numbers. */
module Wrappers {

  datatype Option<+T> = None | Some(value: T)

  datatype Result<+T, +E> = Ok(value: T) | Err(error: E)

  /** JWT expiry, section 4.1.4 of RFC 7519: accepted while the current second is before `exp`. */
  predicate Unexpired(exp: int, now: int) { now / 1000 < exp }

  function Max(a: int, b: int): int { if a < b then b else a }
}
