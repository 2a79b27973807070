/** Optional values and fallible outcomes, used for the sentinel streams and error returns. */
module Wrappers {

  /** A value that may be absent; `None` plays the role of a null pointer. */
  datatype Option<T> = None | Some(value: T)

  /** The outcome of an operation that may fail (throw) instead of returning. */
  datatype Result<T, E> = Ok(value: T) | Err(error: E)
}
