/** Optional values, results that may carry an error, and Python's truthiness of an optional string. */
module Wrappers {

  datatype Option<+T> = None | Some(value: T)

  datatype Result<+R, +E> = Success(value: R) | Failure(error: E)

  /** Python's `if s:` for an `Optional[str]`: neither None nor the empty string. */
  predicate NonEmpty(s: Option<string>)
  {
    s.Some? && s.value != ""
  }
}
