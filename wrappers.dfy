/** Optional values and results with an error reason, for the `None` / `{'error': ...}` returns of
    the Python code. */
module Wrappers {
  datatype Option<T> = None | Some(value: T)

  datatype Result<T, E> = Success(value: T) | Failure(error: E)
}
