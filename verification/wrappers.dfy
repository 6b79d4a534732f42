/** Failure-carrying values shared by every module. Go errors and thrown
    JavaScript errors are both modelled by their message text. */
module Wrappers {

  datatype Option<+T> = None | Some(value: T) {
    function GetOr(default: T): T {
      match this
      case Some(v) => v
      case None => default
    }
  }

  /** A value, or the message of the error that replaced it. */
  datatype Result<+T> = Ok(value: T) | Err(error: string)

  /** Success, or the message of the error. */
  datatype Outcome = Pass | Fail(error: string)
}
