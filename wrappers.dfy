/** Option and Result: the model's stand-ins for Go's nil values and (value, error) returns. */
module Wrappers {

  /** A value that may be missing; None stands for Go's nil. */
  datatype Option<+T> = None | Some(value: T)

  /** The outcome of an operation that can fail with an error of type E. */
  datatype Result<+R, +E> = Success(value: R) | Failure(error: E)
}
