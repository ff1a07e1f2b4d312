/** Failure-compatible result types shared by the room model. */
module Wrappers {

  /** A value that may be absent, as Go's `(value, ok)` lookups return. */
  datatype Option<+T> = None | Some(value: T)

  /** A value or an error, as Go's `(value, error)` returns. */
  datatype Result<+T, +E> = Ok(value: T) | Err(error: E)
}
