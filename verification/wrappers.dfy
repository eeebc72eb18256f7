/** Optional values and success-or-error results, as used throughout the model. */
module Wrappers {

  /** A value that may be absent (the source's `null` / `undefined`). */
  datatype Option<+T> = None | Some(value: T)

  /** Either a computed value or the error that stopped the computation (a thrown `Error`). */
  datatype Result<+T, +E> = Ok(value: T) | Err(error: E)
}
