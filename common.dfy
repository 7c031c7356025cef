// Values shared by the users service and the roles guard: an optional value
// (a TypeScript value that may be `undefined`) and the HTTP statuses the core
// reports its failures with.
module Common {

  datatype Option<T> = None | Some(value: T)

  /** The HttpStatus members the core raises: BAD_REQUEST (400), UNAUTHORIZED
      (401) and CONFLICT (409), all client errors. */
  datatype Status = BadRequest | Unauthorized | Conflict

}
