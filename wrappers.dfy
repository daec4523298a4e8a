/** Option and Result, the two failure-carrying wrappers the model uses in place of
    Python's `None` and of raised exceptions. */
module Wrappers {

  /** A value that may be absent: Python's `None` or a present value. */
  datatype Option<T> = None | Some(value: T) {
    function GetOr(default: T): T {
      match this
      case Some(v) => v
      case None => default
    }
  }

  /** The outcome of a stage that can fail: a value, or the error it raised. */
  datatype Result<T, E> = Ok(value: T) | Err(error: E) {
    predicate IsFailure() { Err? }

    function PropagateFailure<U>(): Result<U, E>
      requires Err?
    {
      Err(error)
    }

    function Extract(): T
      requires Ok?
    {
      value
    }
  }
}
