/** Failure-aware value types shared by the model. */
module Wrappers {

  /** An optional value: `None` stands for a missing array key. */
  datatype Option<+T> = None | Some(value: T)

  /** The outcome of a call that may throw: `Failure` carries the exception. */
  datatype Result<+R, +E> = Success(value: R) | Failure(error: E)
}
