/**
 * The central error middleware (middleware/errorHandler.js): once headers are
 * out it hands the error to Express; otherwise it answers with the error's own
 * status and message, falling back to 500 and a generic message.
 */
module ErrorHandler {
  import opened Wrappers
  import opened Http

  const DefaultStatus: int := 500
  const DefaultMessage: string := "Internal Server Error"

  /** The JSON body `{success, message}`. */
  datatype ErrorBody = ErrorBody(success: bool, message: string)

  /** `err.statusCode || 500`: a missing or zero status code falls back. */
  function StatusOf(err: Error): (s: int)
    ensures s != 0
    ensures (err.statusCode.Some? && err.statusCode.value != 0) ==> s == err.statusCode.value
    ensures (err.statusCode.None? || err.statusCode.value == 0) ==> s == DefaultStatus
  {
    match err.statusCode
    case Some(c) => if c != 0 then c else DefaultStatus
    case None => DefaultStatus
  }

  /** `err.message || 'Internal Server Error'`: the message is never empty. */
  function MessageOf(err: Error): (m: string)
    ensures m != ""
    ensures Truthy(err.message) ==> m == err.message.value
    ensures !Truthy(err.message) ==> m == DefaultMessage
  {
    if Truthy(err.message) then err.message.value else DefaultMessage
  }

  /** The middleware `(err, req, res, next)`, with `res.headersSent` as input. */
  function Handle(err: Error, headersSent: bool): (r: Outcome<ErrorBody>)
    ensures !r.Next?
    ensures r.NextError? <==> headersSent
    ensures r.NextError? ==> r.err == err
    ensures r.Respond? ==> r.status == StatusOf(err) && r.body == ErrorBody(false, MessageOf(err))
  {
    if headersSent then NextError(err)
    else Respond(StatusOf(err), ErrorBody(false, MessageOf(err)))
  }

  /** An error that carries neither a status code nor a message (what a store
      failure typically looks like to this handler) becomes a generic 500. */
  lemma BareErrorIsGeneric500(err: Error)
    requires err.statusCode.None? && !Truthy(err.message)
    ensures Handle(err, false) == Respond(500, ErrorBody(false, "Internal Server Error"))
  {
  }

  /** A response is always a failure body, whatever the error. */
  lemma RespondsWithFailure(err: Error)
    ensures Handle(err, false).Respond? && !Handle(err, false).body.success
  {
  }
}
