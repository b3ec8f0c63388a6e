/** Failure-carrying datatypes shared by the grid model. */
module Wrappers {

  /** A cell that may be absent: JavaScript's `undefined` read result. */
  datatype Option<+T> = None | Some(value: T)

  /** The value of an operation that either returns or throws an error. */
  datatype Result<+R, +E> = Success(value: R) | Failure(error: E)

  /** The outcome of an operation that returns nothing on success. */
  datatype Outcome<+E> = Pass | Fail(error: E)
}
