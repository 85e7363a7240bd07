/** Failure-carrying results shared by every module of the model. */
module Wrappers {

  /** A value that may be absent (Go's nil error, a missed cache lookup). */
  datatype Option<+T> = None | Some(value: T)

  /** Go's `(value, error)` pair where exactly one side is meaningful. */
  datatype Result<+T, +E> = Ok(value: T) | Err(error: E)
}
