/** Results of computations that may find nothing or may fail. */
module Wrappers {

  datatype Option<+T> = None | Some(value: T)

  /** The Python source raises; here a raised error is an `Err` value, propagated with `:-`. */
  datatype Result<+T, +E> = Ok(value: T) | Err(error: E) {
    predicate IsFailure() {
      Err?
    }

    function PropagateFailure<U>(): Result<U, E>
      requires Err?
    {
      Err(error)
    }

    function Extract(): T
      requires Ok?
    {
      value
    }
  }
}
