/**
 Failure-carrying values shared by the configuration validator and the
 upstream handler: `Option` for "maybe an error" (Go's `error`, nil or not)
 and `Result` for a value produced by a step that can fail.
 */
module Wrappers {

  /** `None` is Go's nil; `Some(v)` carries a value. */
  datatype Option<+T> = None | Some(value: T)

  /** Either the value a step produced or the error it reported. */
  datatype Result<+T, +E> = Success(value: T) | Failure(error: E)
}
