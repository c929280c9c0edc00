/** Optional values and results with an error, used wherever the system may
    find nothing or may throw. */
module Outcomes {

  datatype Option<+T> = None | Some(value: T)

  /** The result of a call that may throw: `Failure` carries what was thrown. */
  datatype Result<+R, +E> = Success(value: R) | Failure(error: E)
}
