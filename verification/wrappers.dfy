/** Failure-carrying wrappers used for the webhook's optional values and error returns. */
module Wrappers {

  /** A value that may be absent (a Go nil pointer). */
  datatype Option<+T> = None | Some(value: T)

  /** Either a successful value or an error (a Go `(value, error)` pair). */
  datatype Result<+R, +E> = Success(value: R) | Failure(error: E)
}
