/** Failure-carrying datatypes shared by the other modules. */
module Wrappers {

  /** An optional value; `None` plays the part of Python's `None`. */
  datatype Option<+T> = None | Some(value: T)

  /** Either a value or an error; `Failure` plays the part of a raised exception. */
  datatype Result<+R, +E> = Success(value: R) | Failure(error: E)
}
