/** Result types shared by every component. */
module Wrappers {

  datatype Option<+T> = None | Some(value: T)

  /** The source's `Result`: a value, or the error that explains the refusal. */
  datatype Result<+T, +E> = Ok(value: T) | Err(error: E) {
    predicate IsFailure() {
      Err?
    }

    function PropagateFailure<U>(): Result<U, E>
      requires Err?
    {
      Err(error)
    }

    function Extract(): T
      requires Ok?
    {
      value
    }
  }

  function Min(a: int, b: int): int {
    if a <= b then a else b
  }
}
