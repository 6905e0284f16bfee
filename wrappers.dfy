/** Optional values and results, used for JavaScript's `undefined`/`null`/`NaN`
    and for rejected promises. */
module Wrappers {

  datatype Option<+T> = None | Some(value: T)

  datatype Result<+R, +E> = Success(value: R) | Failure(error: E)
}
