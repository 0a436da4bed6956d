/** Optional values and error outcomes used throughout the model. */
module Wrappers {

  /** A value that may be missing (`null` / `undefined` in the source). */
  datatype Option<+T> = None | Some(value: T)

  /** A computation that either succeeds or stops with an error. */
  datatype Result<+T, +E> = Ok(value: T) | Err(error: E)
}
