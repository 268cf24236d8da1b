/** Absent values and the outcomes of API calls. */
module Wrappers {
  datatype Option<+T> = None | Some(value: T) {
    function GetOr(default: T): T {
      match this
      case Some(v) => v
      case None => default
    }
  }

  /** What a failed call reports. A call that reports Failed may still have
      taken effect on the server: the reply, not the write, can be what was lost. */
  datatype Error =
    | NotFound
    | Conflict
    | AlreadyExists
    | AlreadyOwned
    | Failed
    | Invalid(message: string)

  datatype Result<+T> = Ok(value: T) | Err(error: Error)
}
