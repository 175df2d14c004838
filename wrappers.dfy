/** Failure-carrying values shared by the other modules. */
module Wrappers {

  /** A value that may be absent: an optional argument, or a panel that is not rendered. */
  datatype Option<+T> = None | Some(value: T) {
    /** The value if present, otherwise `default` (the `??` operator). */
    function GetOr(default: T): T {
      match this
      case Some(v) => v
      case None => default
    }
  }

  /** The settled state of a promise that yields a value: fulfilled or rejected. */
  datatype Result<+T, +E> = Success(value: T) | Failure(error: E)

  /** The settled state of a promise that yields nothing: fulfilled or rejected. */
  datatype Outcome<+E> = Pass | Fail(error: E)
}
