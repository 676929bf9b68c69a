/** Optional values and validation results. */
module Wrappers {

  /** An optional value: an unset form field, or a catalog lookup that found nothing. */
  datatype Option<+T> = None | Some(value: T)

  /** Either a validated value or the errors that prevented it. */
  datatype Result<+R, +E> = Success(value: R) | Failure(error: E)
}
