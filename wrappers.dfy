/** Option and a failure-compatible Result, used for the `?` exits of the source. */
module Wrappers {

  datatype Option<+T> = None | Some(value: T)

  /** `Result` can be used with `:-`, which returns early on `Err` like Rust's `?`. */
  datatype Result<+T, +E> = Ok(value: T) | Err(error: E) {

    predicate IsFailure() {
      Err?
    }

    function PropagateFailure<U>(): Result<U, E>
      requires Err?
    {
      Err(error)
    }

    function Extract(): T
      requires Ok?
    {
      value
    }
  }
}
