/** Optional values and results with an error alternative, used throughout the model. */
module Wrappers {

  /** A value that may be absent (a JavaScript `undefined` field, a query that found no row). */
  datatype Option<+T> = None | Some(value: T) {

    /** The carried value, or `fallback` when there is none. */
    function GetOr(fallback: T): T {
      match this
      case Some(v) => v
      case None => fallback
    }
  }

  /** The outcome of an operation that can fail with an error of type `E`. */
  datatype Result<+T, +E> = Success(value: T) | Failure(error: E)
}
