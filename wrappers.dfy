/** Option and a Result whose failure is a JavaScript error message. */
module Wrappers {

  datatype Option<T> = None | Some(value: T)

  /** A computation that either yields a value or throws an Error carrying `error` as its message. */
  datatype Result<T> = Ok(value: T) | Err(error: string) {

    predicate IsFailure() {
      Err?
    }

    function PropagateFailure<U>(): Result<U>
      requires Err?
    {
      Err(error)
    }

    function Extract(): T
      requires Ok?
    {
      value
    }
  }
}
