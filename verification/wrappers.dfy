/** The optional-value and value-or-error datatypes shared by every component of the model. */
module Wrappers {

  /** An optional value; `None` plays the role of Python's `None`. */
  datatype Option<+T> = None | Some(value: T)

  /** A value or an error, used where the source raises an exception. */
  datatype Result<+R, +E> = Success(value: R) | Failure(error: E)
}
