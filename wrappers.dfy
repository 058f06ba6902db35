/** Failure-compatible wrappers shared by every module of the model. */
module Wrappers {

  /** An optional value: `None` stands for JavaScript's `null`/`undefined`
      and Python's `None`. */
  datatype Option<+T> = None | Some(value: T) {
    function GetOr(default: T): T {
      match this
      case Some(v) => v
      case None => default
    }
  }

  /** The outcome of an operation that can fail with a message: a Python
      exception or a JavaScript `throw`. */
  datatype Result<+T> = Success(value: T) | Failure(error: string)
}
