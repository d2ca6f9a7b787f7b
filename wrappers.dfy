/** Option and Result: the absent values and error returns of the invoice service. */
module Wrappers {

  /** A value that may be missing (an optional field of a request, a failed match). */
  datatype Option<+T> = None | Some(value: T)

  /** The outcome of an operation that can fail with an error value. */
  datatype Result<+R, +E> = Success(value: R) | Failure(error: E)
}
