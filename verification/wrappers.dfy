/** Optional values and results with an error, as the rest of the model uses them. */
module Wrappers {

  /** A value that may be absent: an absent JSON field, or a JSON null. */
  datatype Option<+T> = None | Some(value: T)

  /** Either a value or the error that stopped its computation (an exception in the plugin). */
  datatype Result<+R, +E> = Success(value: R) | Failure(error: E)
}
