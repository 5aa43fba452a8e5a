/** Optional values and success-or-failure results, standing for the
    source's `undefined`/`null` and for a thrown exception. */
module Wrappers {

  datatype Option<+T> = None | Some(value: T)

  datatype Result<+R, +E> = Success(value: R) | Failure(error: E)
}
