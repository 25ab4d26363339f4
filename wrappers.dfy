/** Optional values (JavaScript's `undefined` / a value) and results that may
    carry a run-time error. */
module Wrappers {

  /** `None` stands for JavaScript's `undefined`: a missing array element, a
      missing property, or the value of `find` when nothing matches. */
  datatype Option<+T> = None | Some(value: T)

  /** The result of a computation that can throw. */
  datatype Result<+T, +E> = Success(value: T) | Failure(error: E)
}
