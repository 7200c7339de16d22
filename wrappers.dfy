/** Optional values and results, shared by every module of the model. */
module Wrappers {

  /** A value that may be absent: JavaScript's `null` / `undefined`. */
  datatype Option<+T> = None | Some(value: T)

  /** The outcome of an operation that can throw: `Err` carries the thrown value. */
  datatype Result<+T, +E> = Ok(value: T) | Err(error: E)
}
