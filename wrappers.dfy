/** Option and Result, the two failure-carrying datatypes every other module uses. */
module Wrappers {

  /** A value that may be absent: Python's `None` or a missing dictionary key. */
  datatype Option<+T> = None | Some(value: T) {

    /** The wrapped value, or `default` when absent (`d.get(key, default)`). */
    function GetOr(default: T): T {
      match this
      case Some(v) => v
      case None => default
    }
  }

  /** The outcome of an operation that can fail with an error of type E. */
  datatype Result<+T, +E> = Ok(value: T) | Err(error: E)

  /** The outcome of a call into an external engine: it raised, or it returned a value. */
  datatype Reply<+T> = Raised(message: string) | Returned(value: T)
}
