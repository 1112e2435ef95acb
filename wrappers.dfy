/** Optional values and results with an error, as used throughout the model. */
module Wrappers {

  /** An optional value: `None` plays the part of Python's `None`. */
  datatype Option<+T> = None | Some(value: T)

  /** The outcome of a call that may raise: `Failure(e)` stands for raising exception `e`. */
  datatype Result<+R, +E> = Success(value: R) | Failure(error: E)
}
