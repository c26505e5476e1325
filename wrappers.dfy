/** Optional values and results with an error, shared by the other modules. */
module Wrappers {

  /** A value that may be absent (a JS `null` field or a missing property). */
  datatype Option<+T> = None | Some(value: T)

  /** The outcome of an operation that may throw. */
  datatype Result<+T, +E> = Ok(value: T) | Err(error: E)
}
