/** Optional values and error-or-value results used across the model. */
module Wrappers {

  /** A value that may be absent; stands for an optional (`?:`) field that is `undefined`. */
  datatype Option<+T> = None | Some(value: T)

  /** A successful value or an error, for operations the source aborts on. */
  datatype Result<+T, +E> = Ok(value: T) | Err(error: E)
}
