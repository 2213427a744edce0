/** Failure-carrying datatypes used in place of exceptions and null. */
module Wrappers {

  /** A value that may be absent: a conversion that can fail. */
  datatype Option<+T> = None | Some(value: T)

  /** The outcome of reading bound arguments: a decision, or the key whose lookup raised. */
  datatype Result<+R, +E> = Success(value: R) | Failure(error: E)
}
