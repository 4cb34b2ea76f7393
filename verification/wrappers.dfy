/** Failure-carrying datatypes shared by the rest of the model: an optional
    value (a nullable field in the web code) and a success/failure result
    (an operation that may throw). */
module Wrappers {

  /** A value that may be absent; stands for `T | null`. */
  datatype Option<+T> = None | Some(value: T)

  /** The outcome of an operation that either returns a value or fails. */
  datatype Result<+R, +E> = Success(value: R) | Failure(error: E)
}
