/** Option and Result values used wherever the source works with null, undefined or a thrown error. */
module Wrappers {

  /** A value that may be absent: JavaScript's null or undefined. */
  datatype Option<+T> = None | Some(value: T) {
    function GetOr(default: T): T {
      match this
      case Some(v) => v
      case None => default
    }
  }

  /** Either a value or the message of the error that was thrown. */
  datatype Result<+T> = Ok(value: T) | Err(message: string)
}
