/** Failure-carrying results used throughout the pipeline. */
module Wrappers {

  datatype Option<+T> = None | Some(value: T)

  /** A computation that either produced a value or failed with an error value. */
  datatype Result<+R, +E> = Success(value: R) | Failure(error: E)
}
