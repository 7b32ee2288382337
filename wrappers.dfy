/** Option and Result: a missing value, and the exception a Python call raises. */
module Wrappers {

  datatype Option<+T> = None | Some(value: T)

  /** `Err` plays the part of a raised exception; `:-` propagates it like an uncaught raise. */
  datatype Result<+T, +E> = Ok(value: T) | Err(error: E)
  {
    predicate IsFailure() { Err? }

    function PropagateFailure<U>(): Result<U, E>
      requires Err?
    {
      Err(error)
    }

    function Extract(): T
      requires Ok?
    {
      value
    }
  }
}
