/**
 * Optional values, used wherever the source has `None` or a nullable column,
 * and results, used wherever it answers with an error instead of a value.
 */
module Wrappers {

  datatype Option<+T> = None | Some(value: T) {

    function GetOr(default: T): T {
      match this
      case Some(v) => v
      case None => default
    }
  }

  datatype Result<+T, +E> = Ok(value: T) | Err(error: E)
}
