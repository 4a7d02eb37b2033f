/** Optional values and Python-style outcomes shared by every module. */
module Wrappers {
  datatype Option<T> = None | Some(value: T)

  /** The outcome of a Python call that either returns a value or raises. */
  datatype Result<T, E> = Ok(value: T) | Err(error: E)
  {
    predicate IsFailure() { Err? }

    function PropagateFailure<U>(): Result<U, E>
      requires Err?
    {
      Err(error)
    }

    function Extract(): T
      requires Ok?
    {
      value
    }
  }
}
