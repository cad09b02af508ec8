/** Optional values and success/failure results, the shapes the handlers use
    for absent request fields, lookups that may miss and calls that may fail. */
module Wrappers {

  /** A value that may be absent (`undefined` or `null` in the application). */
  datatype Option<+T> = None | Some(value: T) {

    /** The carried value, or `default` when there is none. */
    function GetOr(default: T): T {
      match this
      case Some(v) => v
      case None => default
    }
  }

  /** The outcome of a call that either produces a value or fails with an error. */
  datatype Result<+R, +E> = Success(value: R) | Failure(error: E) {

    predicate IsFailure() {
      Failure?
    }
  }
}

/** HTTP replies of the route handlers: a success body or an error status with
    its message. */
module Http {

  /** The error statuses the handlers answer with. */
  datatype Status = BadRequest | Forbidden | NotFound | Conflict | ServerError {

    /** The numeric HTTP status code. */
    function Code(): int {
      match this
      case BadRequest => 400
      case Forbidden => 403
      case NotFound => 404
      case Conflict => 409
      case ServerError => 500
    }
  }

  /** A handler's reply: `Ok` carries the JSON body of a 200/201 answer, `Fail`
      an error status and the `error` message of its body. */
  datatype Reply<+T> = Ok(body: T) | Fail(status: Status, message: string)

  /** A handled request: the reply sent and the server-side state left behind
      (a cache or a user store). */
  datatype Answer<+T, +S> = Answer(reply: Reply<T>, state: S)
}
