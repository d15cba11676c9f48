/** Absent values and error returns shared by every module of the model. */
module Wrappers {

  /** `null`/`undefined` versus a present value. */
  datatype Option<+T> = None | Some(value: T) {
    /** `x ?? d` for an optional value. */
    function GetOr(default: T): T {
      if Some? then value else default
    }
  }

  /** The outcome of an operation that can refuse its input. */
  datatype Result<+T, +E> = Ok(value: T) | Err(error: E)
}
