/** Option and Result values, used where the build script either has a value
    or not (an unset environment variable, a missing regex match) and where a
    step raises instead of returning. */
module Wrappers {

  datatype Option<+T> = None | Some(value: T)

  datatype Result<+R, +E> = Success(value: R) | Failure(error: E)
}
