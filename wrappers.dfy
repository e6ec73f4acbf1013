/** Failure-carrying values that stand for JavaScript's `undefined` and thrown errors. */
module Wrappers {

  /** An optional value: `None` stands for an absent (`undefined`) field or variable. */
  datatype Option<T> = None | Some(value: T) {
    /** The value, or `default` when absent (a JavaScript default parameter, which replaces only `undefined`). */
    function GetOr(default: T): T {
      match this
      case Some(v) => v
      case None => default
    }
  }

  /** A value, or the error a call would have thrown. */
  datatype Result<T, E> = Success(value: T) | Failure(error: E)

  /** Completion of a call that returns nothing, or the error it would have thrown. */
  datatype Outcome<E> = Pass | Fail(error: E)
}
