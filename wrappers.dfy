/** Optional values and results with an error, shared by every module of the model. */
module Wrappers {

  /** A value that may be absent (Python's missing key, JavaScript's undefined). */
  datatype Option<+T> = None | Some(value: T)

  /** A value, or the exception that was raised instead of returning one. */
  datatype Result<+T, +E> = Ok(value: T) | Err(error: E)
}
