/** Optional values and error-or-value results shared by the client and the store models. */
module Wrappers {

  /** A value that may be absent: JavaScript's `null`/`undefined` for a field. */
  datatype Option<+T> = None | Some(value: T)

  /** The outcome of an operation that either yields a value or fails with an error. */
  datatype Result<+T, +E> = Ok(value: T) | Err(error: E)
}
