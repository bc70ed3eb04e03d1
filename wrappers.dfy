/** Failure-compatible wrappers shared by every module of the model. */
module Wrappers {

  /** A value that may be absent: JavaScript's `undefined`/`null` next to a present value. */
  datatype Option<+T> = None | Some(value: T) {

    /** The present value, or `default` when absent (JavaScript's nullish default). */
    function GetOr(default: T): T {
      match this
      case Some(v) => v
      case None => default
    }
  }

  /** What one HTTP request yields: a decoded body, a non-2xx status, or a request
      that threw (network failure, or a body that could not be decoded). */
  datatype Response<+T> = Ok(body: T) | HttpError(status: int) | Unreachable
}
