/** Optional values and success-or-error results, used wherever the analysed
    program may hold "no value yet" (a `None` attribute, a NaN key) or may
    raise an exception. */
module Wrappers {

  datatype Option<+T> = None | Some(value: T)

  datatype Result<+T, +E> = Success(value: T) | Failure(error: E)
}
