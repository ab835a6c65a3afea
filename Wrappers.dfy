/** Outcome types shared by the whole model. */
module Wrappers {

  /** A nullable value (Kotlin `T?`). */
  datatype Option<+T> = None | Some(value: T) {
    function GetOr(default: T): T {
      match this
      case Some(v) => v
      case None => default
    }

    /** This value when there is one, `other` otherwise. */
    function OrElse(other: Option<T>): Option<T> {
      if Some? then this else other
    }
  }

  /** Kotlin's `Result<T>`: a value, or a failure whose exception message may be null. */
  datatype Result<+T> = Success(value: T) | Failure(message: Option<string>)

  /** What one call to the remote HTTP API gives back: the decoded body, or the
      exception that a transport or server error raised (with its nullable message). */
  datatype Remote<+T> = Reply(body: T) | Fault(cause: Option<string>)
}
