/** Option and Result values for the outcomes of the fakes' lookups. */
module Wrappers {

  /** `None` stands for Python's `None` returned by a lookup that misses. */
  datatype Option<+T> = None | Some(value: T) {
    function GetOr(default: T): T {
      match this
      case Some(v) => v
      case None => default
    }
  }

  /** Either the value a call returns, or the exception it raises. */
  datatype Result<+T, +E> = Success(value: T) | Failure(error: E)
}
