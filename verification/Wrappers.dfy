/** Optional values and results, shared by every model in the project. */
module Wrappers {

  datatype Option<+T> = None | Some(value: T)

  /** A value or an error; usable with the `:-` operator. */
  datatype Result<+T, +E> = Ok(value: T) | Err(error: E) {
    predicate IsFailure() {
      Err?
    }

    function PropagateFailure<U>(): Result<U, E>
      requires Err?
    {
      Err(error)
    }

    function Extract(): T
      requires Ok?
    {
      value
    }
  }

  /** Whether it went well, without the value. */
  function Unit<T, E>(r: Result<T, E>): Result<(), E> {
    if r.Ok? then Ok(()) else Err(r.error)
  }
}
