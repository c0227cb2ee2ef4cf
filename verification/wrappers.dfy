/** Failure-carrying result types used by the game model. */
module Wrappers {

  /** An optional value: the model's stand-in for Python's `None`. */
  datatype Option<+T> = None | Some(value: T)

  /** The outcome of an operation that can raise: either its value or the error it raised. */
  datatype Result<+T, +E> = Success(value: T) | Failure(error: E)
}
