/** Values that may be missing, and results that may be errors. */
module Wrappers {

  datatype Option<+T> = None | Some(value: T)

  /** A value or the code of the check that failed. */
  datatype Try<+T, +E> = Ok(value: T) | Err(code: E) {
    predicate IsFailure() { Err? }
    function PropagateFailure<U>(): Try<U, E> requires Err? { Err(code) }
    function Extract(): T requires Ok? { value }
  }
}
