/** Failure-carrying datatypes standing in for the exceptions the modelled code raises. */
module Wrappers {

  /** A value that may be absent (a missing dictionary key, an optional label). */
  datatype Option<+T> = None | Some(value: T)

  /** Either the value an operation returns or the error it raises. */
  datatype Result<+T, +E> = Success(value: T) | Failure(error: E)

  /** The outcome of an operation that returns nothing on success. */
  datatype Outcome<+E> = Pass | Fail(error: E)
}
