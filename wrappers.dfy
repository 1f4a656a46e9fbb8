/** Optional values and results shared by the modules of this model. */
module Wrappers {

  /** An optional value: a missing JSON field, a missing dictionary entry. */
  datatype Option<+T> = None | Some(value: T) {
    function GetOr(default: T): T {
      match this
      case Some(v) => v
      case None => default
    }
  }

  /** Either a value or an error tag. */
  datatype Result<+R, +E> = Success(value: R) | Failure(error: E)
}
