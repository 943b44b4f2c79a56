/** Identifiers, optional values and the error kinds that the services raise. */
module Common {
  /** Row identifiers are the store's string keys (uuids in the running system). */
  type UserId = string
  type Id = string
  /** A socket.io connection id. */
  type SocketId = string

  datatype Option<T> = None | Some(value: T)

  /** One constructor per exception class the services throw; the payload is the message text. */
  datatype Error =
    | NotFound(msg: string)       // NotFoundException
    | Forbidden(msg: string)      // ForbiddenException
    | BadRequest(msg: string)     // BadRequestException
    | Conflict(msg: string)       // ConflictException
    | Unauthorized(msg: string)   // UnauthorizedException
    | Failed(msg: string)         // a plain Error, or a store error (missing row, broken constraint)

  datatype Result<T> = Ok(value: T) | Err(error: Error)

  /**
   * An exception raised by the store or by the JavaScript runtime rather than by a service (a
   * missing row, a broken unique or foreign-key constraint, a property read on null).  Its text
   * comes from outside the services and is not modelled.
   */
  const STORE_FAILURE := Failed("")

  /** Missing optional input keeps the stored value, as an `undefined` field does in a store update. */
  function Or<T>(given: Option<T>, stored: T): T
  {
    if given.Some? then given.value else stored
  }

  /** JavaScript truthiness of an optional string: present and not empty. */
  predicate Truthy(s: Option<string>)
  {
    s.Some? && s.value != ""
  }

  /** JavaScript's `s || fallback` on an optional string: absent and empty both give the fallback. */
  function OrDefault(given: Option<string>, fallback: string): string
  {
    if Truthy(given) then given.value else fallback
  }

  /** JavaScript's `s || null` on an optional string. */
  function OrNull(given: Option<string>): Option<string>
  {
    if Truthy(given) then given else None
  }
}
