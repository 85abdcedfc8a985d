/** Optional values and results, standing in for JavaScript's `null` and for
    the rejected/accepted outcome of a form submission. */
module Wrappers {

  datatype Option<+T> = None | Some(value: T)

  datatype Result<+R, +E> = Success(value: R) | Failure(error: E)
}
