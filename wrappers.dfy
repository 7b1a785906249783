/** Success/failure values shared by the modules of this model. */
module Wrappers {

  /** A value that may be absent: JavaScript's `undefined`, `null` or `NaN`
      where the program tests for them. */
  datatype Option<+T> = None | Some(value: T)

  /** The outcome of an operation that can throw: `Failure` holds the
      `message` of the thrown error. */
  datatype Result<+T, +E> = Success(value: T) | Failure(error: E)
}
