/** Optional values: a JSON field that is present or absent in a request body. */
module Wrappers {

  datatype Option<+T> = None | Some(value: T) {

    /** The value, or `default` when absent (a destructuring default such as `quantity = 1`). */
    function GetOr(default: T): T {
      match this
      case Some(v) => v
      case None => default
    }
  }

  /** JavaScript truthiness of an optional string: present and not empty. */
  predicate TruthyString(s: Option<string>) {
    s.Some? && s.value != ""
  }
}

/** The HTTP outcome of a route handler: a status code and, on success, the payload. */
module Http {

  datatype Status = OK | Created | BadRequest | NotFound | ServerError {

    /** The numeric status code sent to the client. */
    function Code(): int {
      match this
      case OK => 200
      case Created => 201
      case BadRequest => 400
      case NotFound => 404
      case ServerError => 500
    }

    predicate IsSuccess() {
      OK? || Created?
    }
  }

  /** `{success: true, data}` with a 2xx status, or `{success: false}` with an error status. */
  datatype Response<+T> = Success(status: Status, data: T) | Failure(status: Status)
}
