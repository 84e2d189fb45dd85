/** Optional values and error-carrying results, standing in for Python's `None` and raised exceptions. */
module Wrappers {

  datatype Option<+T> = None | Some(value: T)

  datatype Result<+T, +E> = Ok(value: T) | Err(error: E)

  /** Python's `min(a, b)`. */
  function Min(a: int, b: int): int {
    if a < b then a else b
  }
}
