/** Option and Result, and the error kinds a handler answers with. */
module Wrappers {

  datatype Option<+T> = None | Some(value: T)

  /**
   * The failure answers of the handlers. The HTTP status each one stands for
   * is noted beside it; the reason strings are the source's own messages,
   * shortened.
   */
  datatype Error =
    | NotFound(what: string)         // 404
    | InvalidState(status: string)   // a processing-status guard, reporting the status (403 or 400)
    | AlreadyCancelled               // 400, the event status is "cancelled"
    | Forbidden(reason: string)      // 403
    | Conflict(reason: string)       // 409
    | BadRequest(reason: string)     // 400
    | Unauthorized(reason: string)   // 401
    | Internal(reason: string)       // 500, a unique constraint refused the write

  datatype Result<+T> = Ok(value: T) | Err(error: Error)
}
