/** The wrappers used across the model: `Option` for the "no value"
    sentinel (Python's `None`) and `Result` for operations that either
    succeed or report a terminal error. */
module Wrappers {

  datatype Option<+T> = None | Some(value: T)

  datatype Result<+R, +E> = Success(value: R) | Failure(error: E)
}
