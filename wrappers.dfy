/** The optional-value and outcome types shared by the modules of the alert service model. */
module Wrappers {

  /** A value that may be missing: Python's `Optional[T]`. */
  datatype Option<+T> = None | Some(value: T)

  /** The outcome of a step that can raise: a value, or the error it raises. */
  datatype Result<+T, +E> = Success(value: T) | Failure(error: E)
}
