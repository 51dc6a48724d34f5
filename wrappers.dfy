/** Optional values and success-or-error results, as the app's JavaScript
    expresses them with `null` and with rejected promises. */
module Wrappers {

  /** A value that may be absent (`null` or a missing storage key). */
  datatype Option<+T> = None | Some(value: T) {
    function GetOr(default: T): T {
      match this
      case Some(v) => v
      case None => default
    }
  }

  /** The outcome of an asynchronous call: fulfilled with a value or rejected with an error. */
  datatype Result<+R, +E> = Success(value: R) | Failure(error: E)
}
