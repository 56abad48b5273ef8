/** Option and Result values used across the model in place of JavaScript's
    `undefined` and of thrown errors. */
module Wrappers {

  /** A value that may be absent (`undefined` in the source). */
  datatype Option<+T> = None | Some(value: T) {

    /** The `??` operator: the value when present, `default` otherwise. */
    function GetOr(default: T): T {
      match this
      case Some(v) => v
      case None => default
    }
  }

  /** Either a value or an error, used where the source returns early or throws. */
  datatype Result<+T, +E> = Ok(value: T) | Err(error: E)
}
