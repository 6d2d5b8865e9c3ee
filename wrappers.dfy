/** Optional values (Java's nullable references) and results (a value or the
    message of the exception that was thrown instead). */
module Wrappers {

  /** `None` stands for a Java `null`. */
  datatype Option<+T> = None | Some(value: T) {
    function GetOr(default: T): T {
      match this
      case Some(v) => v
      case None => default
    }
  }

  /** `Failure` carries the exception message that the Java code would throw. */
  datatype Result<+R> = Success(value: R) | Failure(error: string)
}
