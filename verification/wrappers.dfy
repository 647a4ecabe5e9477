/** Option and Result wrappers used throughout the quota model. */
module Wrappers {

  /** A value that may be absent; `None` plays the role of Go's nil. */
  datatype Option<+T> = None | Some(value: T)

  /** The outcome of a collaborator call: a value, or the error it reported. */
  datatype Result<+R, +E> = Success(value: R) | Failure(error: E)
}
