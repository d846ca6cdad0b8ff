/** Option and Result, the wrappers used by the rest of the model. */
module Wrappers {

  datatype Option<+T> = None | Some(value: T)

  /** A Python exception raised part-way through becomes a Failure carrying the error. */
  datatype Result<+R, +E> = Success(value: R) | Failure(error: E)
}
