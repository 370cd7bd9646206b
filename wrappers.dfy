/** Optional values (JavaScript's null / undefined) and fallible results (a thrown error). */
module Wrappers {

  datatype Option<+T> = None | Some(value: T) {
    function GetOr(default: T): T {
      match this
      case Some(v) => v
      case None => default
    }
  }

  datatype Result<+T, +E> = Success(value: T) | Failure(error: E)

  /** An awaited call as a `try` block sees it: it resolved, possibly to `null`, or it threw. */
  datatype Fetch<+T> = Loaded(result: Option<T>) | Threw
}
