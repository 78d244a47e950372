/** Option and Result, the two failure-carrying shapes the model uses for
    absent values (a missing JSON key, a `find` that finds nothing) and for
    calls that can fail (a service call, a constrained insert). */
module Wrappers {

  datatype Option<+T> = None | Some(value: T) {
    function GetOr(default: T): T {
      match this
      case Some(v) => v
      case None => default
    }
  }

  datatype Result<+T, +E> = Ok(value: T) | Err(error: E)
}
