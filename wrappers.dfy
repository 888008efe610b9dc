/** Optional values and results, used for Java's nullable references and for
    operations that either produce a value or report an error. */
module Wrappers {

  /** A Java reference that may be null: None stands for null. */
  datatype Option<+T> = None | Some(value: T) {
    function GetOr(default: T): T {
      match this
      case Some(v) => v
      case None => default
    }
  }

  /** The outcome of an operation that can throw: Failure carries the exception's message. */
  datatype Result<+T, +E> = Success(value: T) | Failure(error: E)
}
