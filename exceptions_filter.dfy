/**
 * The last error handler of the HTTP pipeline: it turns whatever was thrown
 * into the JSON error body `{success, statusCode, title, detail}` and the status
 * it is sent with.
 */
module ExceptionsFilter {
  import opened Wrappers
  import opened AppErrors
  import HttpStatus

  /** What reached the handler: an AppError, or any other exception. */
  datatype Thrown = App(err: AppError) | Other(message: string)

  /** The response body (without its timestamp). */
  datatype ErrorBody = ErrorBody(success: bool, statusCode: int, title: string, detail: string)

  /** What is sent: the HTTP status and the body. */
  datatype Reply = Reply(status: int, body: ErrorBody)

  /** Title used for a status that has no reason phrase in the table. */
  const FallbackTitle := "Error"

  /** Detail and status used for anything that is not an AppError. */
  const InternalDetail := "Internal Server Error"
  const InternalStatus := 500

  function Title(status: int): string {
    HttpStatus.ReasonPhrase(status).GetOr(FallbackTitle)
  }

  /** The filter: status and detail come from an AppError, and are 500 / "Internal Server Error" otherwise. */
  function Filter(thrown: Thrown): (reply: Reply)
    ensures !reply.body.success
    ensures reply.body.statusCode == reply.status
    ensures thrown.App? ==> reply.status == thrown.err.statusCode && reply.body.detail == thrown.err.detail
    ensures thrown.Other? ==> reply.status == 500 && reply.body.detail == "Internal Server Error"
    ensures reply.body.title == "Error" <==> HttpStatus.ReasonPhrase(reply.status).None?
    ensures HttpStatus.StatusOf(reply.body.title) == Some(reply.status) || reply.body.title == "Error"
  {
    var status := if thrown.App? then thrown.err.statusCode else InternalStatus;
    var detail := if thrown.App? then thrown.err.detail else InternalDetail;
    Reply(status, ErrorBody(false, status, Title(status), detail))
  }

  /** A conflict is reported with the title "Conflict". */
  lemma ConflictTitle(detail: string)
    ensures Filter(App(AppError(409, detail))).body.title == "Conflict"
  {
  }
}
