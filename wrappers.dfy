/** Values shared by every route: document ids, optional request fields and
    the outcome of a handler. */
module Wrappers {

  /** A request-body field: `None` is JavaScript's `undefined` (the field was
      not sent); `Some("")` is the empty string, a different value. */
  datatype Option<+T> = None | Some(value: T)

  /** Document ids (Mongo ObjectIds, customer ids, seller ids), compared with `==`. */
  type Id = string

  /** JavaScript truthiness of an optional string: sent and not empty. */
  predicate Truthy(s: Option<string>) {
    s.Some? && s.value != ""
  }

  /** The failures a handler reports, with the HTTP status the source sends. */
  datatype Error =
    | InvalidInput       // 400: a required field is missing or out of range
    | NotFound           // 404: no document with that id
    | EmailTaken         // 400: registration with an email already in use
    | BadCredentials     // 400: login with an unknown email or a wrong password
    | ValidationFailed   // 500: the schema validator refuses the document on save
    | DuplicateKey       // 500: the unique index on the collection refuses the write

  datatype Result<+T> = Ok(value: T) | Err(error: Error)
}
