/** Small failure-carrying datatypes shared by the model. */
module Wrappers {

  /** A value that may be absent: Go's nil results and "comma ok" lookups. */
  datatype Option<+T> = None | Some(value: T) {
    function GetOr(default: T): T {
      match this
      case Some(v) => v
      case None => default
    }
  }

  /** The outcome of a Go call that returns only an `error`. */
  datatype Outcome = Pass | Fail(message: string)
}
