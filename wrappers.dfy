/** Option and Result: the two sum types every other module uses for absent values and error paths. */
module Wrappers {
  datatype Option<T> = None | Some(value: T)

  /** With `:-`, an `Err` ends the computation, as Rust's `?` does. */
  datatype Result<T, E> = Ok(value: T) | Err(error: E)
  {
    predicate IsFailure() { Err? }

    function PropagateFailure<U>(): Result<U, E>
      requires Err?
    {
      Err(error)
    }

    function Extract(): T
      requires Ok?
    {
      value
    }
  }
}
