/** Option and Result values standing for JavaScript's null/undefined and for
    operations that either produce a value or fail with a message. */
module Wrappers {

  datatype Option<+T> = None | Some(value: T) {
    function GetOr(default: T): T {
      match this
      case Some(v) => v
      case None => default
    }
  }

  datatype Result<+R> = Success(value: R) | Failure(error: string) {
    /** The value, or None for a failure. */
    function ToOption(): Option<R> {
      match this
      case Success(v) => Some(v)
      case Failure(_) => None
    }
  }
}
