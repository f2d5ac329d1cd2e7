/** Optional values and success-or-error results, used wherever the
    JavaScript code returns null/undefined or throws. */
module Wrappers {

  datatype Option<+T> = None | Some(value: T)

  datatype Result<+T, +E> = Success(value: T) | Failure(error: E)
}
