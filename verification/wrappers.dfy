/** Optional values and results, shared by the rest of the model. */
module Wrappers {

  /** A value that may be absent: `null`/`undefined` in the handler. */
  datatype Option<+T> = None | Some(value: T)

  /** Either a value or the reason the request was turned away. */
  datatype Result<+R, +E> = Success(value: R) | Failure(error: E)
}
