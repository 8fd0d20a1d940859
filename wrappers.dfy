/** Optional values and success-or-error results, used for Python's `None`
    and for the HTTP errors that the route handlers raise. */
module Wrappers {

  datatype Option<+T> = None | Some(value: T)

  datatype Result<+R, +E> = Success(value: R) | Failure(error: E)
}
