/** Failure-carrying wrappers shared by every module of the model: an optional
    value (PHP's nullable values) and a result that is either a value or the
    error a PHP method would have thrown. */
module Wrappers {

  datatype Option<+T> = None | Some(value: T) {

    /** The wrapped value, or `default` when there is none. */
    function GetOr(default: T): T {
      match this
      case Some(v) => v
      case None => default
    }
  }

  datatype Result<+R, +E> = Success(value: R) | Failure(error: E)
}
