/** Option and Result, the two wrappers the model uses for Java's null and for thrown exceptions. */
module Wrappers {

  datatype Option<+T> = None | Some(value: T) {

    /** The wrapped value, or `default` when there is none. */
    function GetOr(default: T): T {
      match this
      case Some(v) => v
      case None => default
    }
  }

  datatype Result<+R, +E> = Success(value: R) | Failure(error: E)

  /** A supplied value replaces the prior one; an absent (null) one keeps it. */
  function Override<T>(supplied: Option<T>, prior: Option<T>): Option<T> {
    if supplied.Some? then supplied else prior
  }
}
