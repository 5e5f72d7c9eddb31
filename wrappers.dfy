/** Option and a failure-compatible Result, used for the handler's exceptions. */
module Wrappers {

  datatype Option<+T> = None | Some(value: T)

  /** `Err` carries the exception a Python function would raise; `:-` propagates it. */
  datatype Result<+T, +E> = Ok(value: T) | Err(error: E) {

    predicate IsFailure() {
      Err?
    }

    function PropagateFailure<U>(): Result<U, E>
      requires Err?
    {
      Err(error)
    }

    function Extract(): T
      requires Ok?
    {
      value
    }
  }
}
