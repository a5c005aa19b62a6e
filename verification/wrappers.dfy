/** Option and Result: the absent value (JavaScript `null`/`undefined`, Swift `nil`)
    and the outcome of an operation that can throw. */
module Wrappers {

  datatype Option<+T> = None | Some(value: T) {

    /** The wrapped value, or `default` when there is none (JavaScript `??`). */
    function GetOr(default: T): T {
      match this
      case Some(v) => v
      case None => default
    }
  }

  /** A value, or the message of the exception that was thrown instead. */
  datatype Result<+T> = Ok(value: T) | Err(message: string)
}
