/** Option and Result, the two shapes every partial operation of the model returns. */
module Wrappers {

  /** Python's `None` versus a present value. */
  datatype Option<+T> = None | Some(value: T) {

    /** The value, or `default` when there is none (Python's `dict.get(key, default)`). */
    function GetOr(default: T): T {
      match this
      case Some(v) => v
      case None => default
    }
  }

  /** A value, or the exception an operation raises instead. */
  datatype Result<+T, +E> = Ok(value: T) | Err(error: E)
}
