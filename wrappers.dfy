/** Failure-carrying result types shared by every module of the model. */
module Wrappers {

  datatype Option<+T> = None | Some(value: T)

  /** A value, or the error message the Go code would have returned beside it. */
  datatype Result<+R, +E> = Ok(value: R) | Err(error: E)
}
