/** Option and Result, the two failure-carrying wrappers every service module uses. */
module Wrappers {

  /** A value that may be absent: a nullable column, an optional field, an `undefined` key. */
  datatype Option<+T> = None | Some(value: T)
  {
    /** The value, or `default` when it is absent. */
    function GetOr(default: T): T
    {
      if Some? then value else default
    }
  }

  /** The outcome of an operation that either returns a value or throws one of its errors. */
  datatype Result<+T, +E> = Success(value: T) | Failure(error: E)
}
