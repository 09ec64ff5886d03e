/** Option and Result, used for the nil and error returns of the services, and the ways
    a write can go. */
module Wrappers {

  datatype Option<+T> = None | Some(value: T) {
    function GetOr(default: T): T {
      if Some? then value else default
    }
  }

  datatype Result<+T, +E> = Success(value: T) | Failure(error: E)

  // A failing write to a store may or may not have taken effect.
  datatype WriteFault = Clean | FailedBefore | FailedAfter
}
