/** Failure-carrying datatypes shared by the model: Option for values that may
    be absent, Result for operations that may throw. */
module Wrappers {

  /** A value that may be absent (PHP's "unset or null"). */
  datatype Option<+T> = None | Some(value: T)

  /** The outcome of a call that may throw: Success carries the return value,
      Failure carries the exception. */
  datatype Result<+R, +E> = Success(value: R) | Failure(error: E)
}
