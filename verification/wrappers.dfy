/** Optional values and success/failure results, used for nullable columns
    and for the error responses of the meet routes. */
module Wrappers {

  /** A nullable value: `None` plays the part of SQL NULL / Python `None`. */
  datatype Option<+T> = None | Some(value: T) {

    /** Returns the value in `Some`, or `default` if `None`. */
    function GetOr(default: T): T {
      match this
      case Some(v) => v
      case None => default
    }
  }

  /** The outcome of a route: the new state, or the error the route reports. */
  datatype Result<+R, +E> = Ok(value: R) | Err(error: E)
}
