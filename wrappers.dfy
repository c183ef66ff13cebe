/** Small value wrappers shared by every module of the model. */
module Wrappers {

  /** A value that may be absent: a request field that was not sent, a header that is missing. */
  datatype Option<+T> = None | Some(value: T) {

    /** The value, or `default` when absent. */
    function GetOr(default: T): T {
      match this
      case Some(v) => v
      case None => default
    }
  }

  /**
   * A field of a JSON request body used as a partial update: left out of the
   * body (`Keep`), sent as `null` (`SetNull`), or sent with a value (`Set`).
   */
  datatype Patch<+T> = Keep | SetNull | Set(value: T) {

    /** The value the field has after the update, for a patch that is not `null`. */
    function Over(current: T): T
      requires !SetNull?
    {
      match this
      case Set(v) => v
      case Keep => current
    }
  }
}

/** The HTTP statuses the handlers answer with. */
module Http {

  datatype Status = Ok | Created | BadRequest | Unauthorized | Forbidden | NotFound | Conflict | ServerError {

    /** The numeric status code sent to the client. */
    function Code(): (c: int)
      ensures 200 <= c < 600
      ensures c < 300 <==> this in {Ok, Created}
    {
      match this
      case Ok => 200
      case Created => 201
      case BadRequest => 400
      case Unauthorized => 401
      case Forbidden => 403
      case NotFound => 404
      case Conflict => 409
      case ServerError => 500
    }
  }
}
