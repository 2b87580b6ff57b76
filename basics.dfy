/** Small value types shared by every handler of the model. */
module Basics {

  /** A value that may be absent: JSON `null`, an `undefined` field, or a number that is NaN. */
  datatype Option<+T> = None | Some(value: T) {
    function GetOr(default: T): T {
      match this
      case Some(v) => v
      case None => default
    }
  }

  /** The outcome of a request handler once its HTTP plumbing is stripped away:
      a payload, or an HTTP status code with the error text of the JSON body. */
  datatype Reply<+T> = Ok(value: T) | Err(status: int, error: string)

  /** The result of a validation routine: it passes, or fails with the first message. */
  datatype Check = Pass | Fail(message: string)

  function Max(a: int, b: int): int { if a < b then b else a }

  function Min(a: int, b: int): int { if a < b then a else b }
}
