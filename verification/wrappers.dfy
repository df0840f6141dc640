/** Optional values and results with an error, as used throughout the model. */
module Wrappers {

  datatype Option<+T> = None | Some(value: T)

  /** The outcome of an operation that the script aborts on failure. */
  datatype Result<+T, +E> = Ok(value: T) | Err(error: E)
}
