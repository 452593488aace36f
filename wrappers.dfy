/** Failure-carrying datatypes shared by the other modules. */
module Wrappers {

  /** A value that may be missing (pandas' NaN in a column of names). */
  datatype Option<+T> = None | Some(value: T)

  /** The outcome of an operation that can raise instead of returning. */
  datatype Result<+R, +E> = Success(value: R) | Failure(error: E)
}
