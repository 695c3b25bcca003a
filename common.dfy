/**
 * Shared result types of the service: an optional value, the application
 * error taxonomy and a value-or-error result.
 *
 * The `apperr` package itself is not part of this model; its constructors
 * appear here only as the error kinds the core returns.
 */
module Common {

  datatype Option<+T> = None | Some(value: T)

  /** The application errors the core produces. */
  datatype AppError =
    | BadRequest(message: string)
      /** a `strconv` failure wrapped as a bad request: the function and its input */
    | BadRequestParse(func: string, input: string)
    | Conflict(field: string, value: string)
    | Authorization(message: string)
    | Internal(message: string)
      /** a failed statement; `operation` names the statement ("create claim", ...) */
    | DatabaseError(operation: string)
      /** a failed BEGIN, COMMIT or ROLLBACK */
    | TransactionError(step: string)

  datatype Result<+T> = Ok(value: T) | Err(error: AppError)
}
