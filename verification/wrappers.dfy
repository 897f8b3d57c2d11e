/** Failure-carrying values: Python's `None`-or-value and value-or-exception. */
module Wrappers {

  datatype Option<+T> = None | Some(value: T)

  /** The value of an expression, or the exception its evaluation raised. */
  datatype Result<+T, +E> = Ok(value: T) | Err(error: E) {
    predicate IsFailure() { Err? }

    function PropagateFailure<U>(): Result<U, E>
      requires Err?
    {
      Err(error)
    }

    function Extract(): T
      requires Ok?
    {
      value
    }
  }
}
