/** Optional values and error-carrying results, used for missing payload keys,
    absent filter fields and the outcomes of calls into the external services. */
module Wrappers {

  /** `None` stands for a missing key, a Python `None`, or a call that raised. */
  datatype Option<+T> = None | Some(value: T) {

    /** The value if present, otherwise `default` (Python's `dict.get(key, default)`). */
    function GetOr(default: T): T {
      match this
      case Some(v) => v
      case None => default
    }
  }

  datatype Result<+R, +E> = Success(value: R) | Failure(error: E)
}
