/** Optional values and results with an error alternative, as used by the model. */
module Wrappers {

  /** Java's `Optional<T>`: either empty or holding a value. */
  datatype Option<T> = None | Some(value: T)

  /** The outcome of an operation that either returns a value or raises an error. */
  datatype Result<T, E> = Ok(value: T) | Err(error: E)
}
