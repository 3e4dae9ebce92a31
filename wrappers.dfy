/** Option and Result, the two failure-carrying types the client code uses. */
module Wrappers {

  /** An optional value, as Rust's `Option<T>`. */
  datatype Option<T> = None | Some(value: T) {

    /** Rust's `Option::or`: this value if present, otherwise `other`. */
    function Or(other: Option<T>): (r: Option<T>)
      ensures Some? ==> r == this
      ensures None? ==> r == other
    {
      if Some? then this else other
    }

    /** The value if present, otherwise `default`. */
    function GetOr(default: T): T
    {
      match this
      case Some(v) => v
      case None => default
    }
  }

  /** A success value or an error, as Rust's `Result<T, E>`. */
  datatype Result<T, E> = Ok(value: T) | Err(error: E)
}
