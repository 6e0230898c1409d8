/** Option, Result and Outcome: the model's stand-ins for `undefined` and for
    the errors the workshop's domain layer throws. */
module Wrappers {

  /** An optional value: `None` plays the role of `undefined`. */
  datatype Option<+T> = None | Some(value: T)

  /** The outcome of a validating factory: a value, or the error it throws. */
  datatype Result<+T, +E> = Success(value: T) | Failure(error: E)

  /** The outcome of a mutator that returns nothing but may throw. */
  datatype Outcome<+E> = Pass | Fail(error: E)
}
