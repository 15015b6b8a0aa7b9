/** The exceptions the services throw, as values. */
module Errors {

  /** NestJS HTTP exceptions by kind, and a plain `Error`. */
  datatype Exception =
    | NotFound(message: string)
    | Conflict(message: string)
    | Unauthorized(message: string)
    | BadRequest(message: string)
    | PlainError(message: string)

  /** The outcome of an operation that may throw. */
  datatype Result<T> = Ok(value: T) | Err(error: Exception)
}
