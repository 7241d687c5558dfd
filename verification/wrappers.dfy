/** Option and Result: the model's stand-ins for Java's null references and thrown exceptions. */
module Wrappers {

  /** A value that may be absent (a nullable Java reference or boxed Integer). */
  datatype Option<+T> = None | Some(value: T) {

    /** The value when present, `default` otherwise. */
    function GetOr(default: T): T {
      match this
      case Some(v) => v
      case None => default
    }
  }

  /** Either a normal result or the exception a Java method would throw. */
  datatype Result<+R, +E> = Success(value: R) | Failure(error: E)
}
