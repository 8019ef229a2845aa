/** Failure-carrying return values used throughout the replica model. */
module Wrappers {

  /** A value that may be absent: Go's `nil` error or a missing map entry. */
  datatype Option<+T> = None | Some(value: T)

  /** A value or an error, for collaborators that return `(T, error)`. */
  datatype Result<+R, +E> = Success(value: R) | Failure(error: E)

  /** Pass or fail without a value, for operations whose Go signature returns only `error`. */
  datatype Outcome<+E> = Pass | Fail(error: E)
}
