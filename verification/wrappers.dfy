/** Wrappers used throughout the model: `Option` for the source's `None`
    returns, and `Result` for the exceptions it raises. `Result` is
    failure-compatible, so a raise propagates through `:-` as it does in the
    source. */
module Wrappers {

  datatype Option<+T> = None | Some(value: T)

  datatype Result<+R, +E> = Success(value: R) | Failure(error: E) {

    predicate IsFailure() {
      Failure?
    }

    function PropagateFailure<U>(): Result<U, E>
      requires Failure?
    {
      Failure(error)
    }

    function Extract(): R
      requires Success?
    {
      value
    }
  }
}
