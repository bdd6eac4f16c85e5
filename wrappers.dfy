/** Option and Result, standing for Java's nullable references and thrown exceptions. */
module Wrappers {

  /** `None` plays the part of Java's `null`. */
  datatype Option<+T> = None | Some(value: T) {

    /** The value, or `default` when there is none. */
    function GetOr(default: T): T {
      match this
      case Some(v) => v
      case None => default
    }
  }

  /** `Err` plays the part of an exception that escapes the operation. */
  datatype Result<+T, +E> = Ok(value: T) | Err(error: E)
}
