/** Option and Result datatypes used across the model for Python's `None` and raised exceptions. */
module Wrappers {

  datatype Option<+T> = None | Some(value: T) {
    /** Returns the encapsulated value, or `default` if there is none (Python's `d.get(k, default)`). */
    function GetOr(default: T): T {
      match this
      case Some(v) => v
      case None => default
    }
  }

  /** A computation that either returns a value or raises an error carrying a message. */
  datatype Result<+R> = Ok(value: R) | Err(error: string)
}
