/** Python's `None` and Python's exceptions, as values. */
module Wrappers {

  /** A value that may be `None`; also a dictionary key that may be missing. */
  datatype Option<+T> = None | Some(value: T) {

    /** Python's `d.get(key, default)`. */
    function GetOr(default: T): T
    {
      match this
      case Some(v) => v
      case None => default
    }
  }

  /** The outcome of a call that returns a value or raises an exception with a message. */
  datatype Result<+T> = Ok(value: T) | Err(error: string)
}
