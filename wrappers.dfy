/** Optional values and failure-compatible results, used for JavaScript's
    `undefined` and for the TypeErrors the component can throw. */
module Wrappers {

  /** `None` stands for a JavaScript value that is `undefined` or `null`. */
  datatype Option<+T> = None | Some(value: T)

  /** `Failure` stands for an exception thrown while the component renders. */
  datatype Result<+R, +E> = Success(value: R) | Failure(error: E) {

    predicate IsFailure() {
      Failure?
    }

    function PropagateFailure<U>(): Result<U, E>
      requires Failure?
    {
      Failure(error)
    }

    function Extract(): R
      requires Success?
    {
      value
    }
  }
}
