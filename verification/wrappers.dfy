/** Optional values and results with an error, used for Python's `None`
    arguments, for a decode that may raise, and for a constructor that may raise. */
module Wrappers {

  datatype Option<+T> = None | Some(value: T)

  datatype Result<+R, +E> = Success(value: R) | Failure(error: E)
}
