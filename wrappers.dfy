/** Optional values and success/failure results, standing in for the
    source's `undefined` and its `Ok.of` / `Err.of` result objects. */
module Wrappers {

  datatype Option<+T> = None | Some(value: T) {
    /** The `??` operator: the value when present, otherwise `default`. */
    function GetOr(default: T): T {
      match this
      case Some(v) => v
      case None => default
    }
  }

  datatype Result<+R, +E> = Success(value: R) | Failure(error: E)

  /** The `void` value carried by `Ok.of(undefined)`. */
  datatype Unit = Unit
}
