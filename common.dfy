/** Values shared by every part of the news backend model: optional values,
    the outcome of a request handler, and the opaque values the handlers
    receive from outside (clock readings and authenticated user ids). */
module Common {

  /** Python's `X | None`. */
  datatype Option<T> = None | Some(value: T) {
    /** The value, or `default` when there is none. */
    function GetOr(default: T): T {
      match this
      case Some(v) => v
      case None => default
    }
  }

  /** What a handler answers: a value, or an HTTP 404 / 403 failure. */
  datatype Outcome<T> = Ok(value: T) | NotFound | Forbidden

  /** A clock reading; the handlers never inspect it, they only store it. */
  type Timestamp = int

  /** The id of an already authenticated, active user (a UUID in the source). */
  type UserId = int

  function Min(a: int, b: int): int {
    if a <= b then a else b
  }
}
