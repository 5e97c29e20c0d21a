/** Optional values and results with an error, shared by every module of the model. */
module Wrappers {

  /** A value that may be absent: a query parameter or body field that was not sent. */
  datatype Option<+T> = None | Some(value: T)

  /** What a handler answers: a value, or one of the controller's error replies. */
  datatype Result<+T, +E> = Ok(value: T) | Err(error: E)
}
