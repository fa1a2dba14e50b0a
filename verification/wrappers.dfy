/** Optional values and success-or-failure results, used for JavaScript's
    `undefined`/`null` and for thrown exceptions. */
module Wrappers {

  datatype Option<+T> = None | Some(value: T)

  datatype Result<+R, +E> = Success(value: R) | Failure(error: E)
}
