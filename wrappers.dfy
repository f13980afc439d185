/** Option, Result and Outcome datatypes shared by every module of the model. */
module Wrappers {

  datatype Option<+T> = None | Some(value: T) {
    function GetOr(default: T): T {
      match this
      case Some(v) => v
      case None => default
    }
  }

  datatype Result<+R, +E> = Success(value: R) | Failure(error: E)

  /** The outcome of a Python call that returns None or raises. */
  datatype Outcome<+E> = Pass | Fail(error: E)
}
