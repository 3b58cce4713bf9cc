/** Failure-compatible wrappers used throughout the model. */
module Wrappers {

  /** An optional value: the result of a lookup that may find nothing. */
  datatype Option<+T> = None | Some(value: T)

  /** Either a value or the error that stopped the computation. */
  datatype Result<+R, +E> = Success(value: R) | Failure(error: E)
}
