/** Optional values and the result of a request handler. */
module Wrappers {

  /** A value that may be absent (`undefined` / `null` in the source). */
  datatype Option<+T> = None | Some(value: T) {
    function GetOr(default: T): T {
      if Some? then value else default
    }
  }

  /**
   * What a request handler answers: a success body, or the status code and
   * message that the error middleware writes with `success: false`.
   */
  datatype Result<+T> = Ok(value: T) | Err(status: int, message: string)
}
