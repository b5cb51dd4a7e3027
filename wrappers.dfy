/** Optional values and outcomes, standing in for JavaScript's `undefined`/`null`
    and for the exceptions that the client's mutations throw. */
module Wrappers {

  datatype Option<+T> = None | Some(value: T) {
    function GetOr(default: T): T {
      match this
      case Some(v) => v
      case None => default
    }
  }

  datatype Result<+R, +E> = Success(value: R) | Failure(error: E)
}
