/** The application's one error type: an HTTP status code and a human-readable detail. */
module AppErrors {

  datatype AppError = AppError(statusCode: int, detail: string)
}
