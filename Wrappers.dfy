/** Option and Result, the failure-carrying values used throughout the model. */
module Wrappers {

  /** An absent (`undefined`) or present value. */
  datatype Option<+T> = None | Some(value: T)

  /** The outcome of a validation: the validated value or what went wrong. */
  datatype Result<+R, +E> = Success(value: R) | Failure(error: E)
}
