/** Optional values and results with an error, used for the unset promotion
    parameters and for the one validation failure of the entities. */
module Wrappers {

  datatype Option<+T> = None | Some(value: T)

  datatype Result<+R, +E> = Success(value: R) | Failure(error: E)
}
