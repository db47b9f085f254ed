/** Failure-compatible wrappers and the small numeric helper shared by the whole model. */
module Wrappers {

  datatype Option<+T> = None | Some(value: T) {
    /** Python's `d.get(key, default)` once the lookup has produced an Option. */
    function GetOr(default: T): T {
      match this
      case Some(v) => v
      case None => default
    }
  }

  datatype Result<+R, +E> = Success(value: R) | Failure(error: E)

  /** Python's `min` of two numbers. */
  function Min(a: int, b: int): int {
    if a <= b then a else b
  }
}
