/** Failure-compatible wrappers used by the upload handler model. */
module Wrappers {

  /** An optional value: a missing request parameter, a missing map entry,
      a credential that did not verify. */
  datatype Option<+T> = None | Some(value: T)

  /** Either a value or an error; usable with `:-` so that the first
      failing guard short-circuits the rest. */
  datatype Result<+T, +E> = Success(value: T) | Failure(error: E) {

    predicate IsFailure() {
      Failure?
    }

    function PropagateFailure<U>(): Result<U, E>
      requires Failure?
    {
      Failure(error)
    }

    function Extract(): T
      requires Success?
    {
      value
    }
  }
}
