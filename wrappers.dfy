/** Optional values and results with an error payload, used where the
    scanner returns `None` or raises. */
module Wrappers {
  datatype Option<+T> = None | Some(value: T)

  datatype Result<T, E> = Ok(value: T) | Err(error: E)
}
