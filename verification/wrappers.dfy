/** Option, Result and Outcome: the values the screens return instead of
    throwing, alerting or returning null. */
module Wrappers {

  datatype Option<+T> = None | Some(value: T) {
    function GetOr(default: T): T {
      match this
      case Some(v) => v
      case None => default
    }
  }

  datatype Result<+R, +E> = Success(value: R) | Failure(error: E)

  /** Pass or Fail: a check that carries only an error value. */
  datatype Outcome<+E> = Pass | Fail(error: E)
}
