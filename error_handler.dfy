/**
 * The API's final error middleware: it picks the status of a failed request
 * from the error, hides the message of server errors, and adds the stack
 * trace only in development.
 */
module ErrorHandler {
  import opened JsValues

  /** The error's own properties the middleware reads. A status of 0 and an
      empty message are falsy, like absent ones. */
  datatype Err = Err(statusCode: Option<int>, status: Option<int>, message: Option<string>, stack: Option<string>)

  /** The JSON body of the answer; `stack` absent is `None`. */
  datatype ErrorBody = ErrorBody(success: bool, error: string, stack: Option<string>)

  /** Either the error goes on to `next` (headers already sent) or an answer
      is written. */
  datatype Reply = PassOn | Respond(status: int, body: ErrorBody)

  const ServerError := "Server Error"
  const RequestError := "Request error"
  const Development := "development"

  predicate IsSetCode(c: Option<int>) {
    c.Some? && c.value != 0
  }

  /** `err.statusCode || err.status || 500`. */
  function StatusOf(err: Err): (code: int)
    ensures code != 0
    ensures IsSetCode(err.statusCode) ==> code == err.statusCode.value
    ensures !IsSetCode(err.statusCode) && IsSetCode(err.status) ==> code == err.status.value
    ensures !IsSetCode(err.statusCode) && !IsSetCode(err.status) ==> code == 500
  {
    if IsSetCode(err.statusCode) then err.statusCode.value
    else if IsSetCode(err.status) then err.status.value
    else 500
  }

  /** The message shown for a status. */
  function MessageFor(code: int, err: Err): (m: string)
    ensures m != ""
    ensures code == 500 ==> m == ServerError
    ensures code != 500 && err.message.Some? && err.message.value != "" ==> m == err.message.value
    ensures code != 500 && (err.message.None? || err.message.value == "") ==> m == RequestError
  {
    if code == 500 then ServerError
    else if err.message.Some? && err.message.value != "" then err.message.value
    else RequestError
  }

  /** The middleware. `nodeEnv` is the value of `NODE_ENV`. */
  function HandleError(err: Err, headersSent: bool, nodeEnv: Option<string>): (r: Reply)
    ensures r.PassOn? <==> headersSent
    ensures r.Respond? ==> r.status == StatusOf(err) && !r.body.success && r.body.error != ""
    ensures r.Respond? && r.status == 500 ==> r.body.error == ServerError
    ensures r.Respond? && r.status != 500 ==> r.body.error == MessageFor(r.status, err)
    ensures r.Respond? && nodeEnv != Some(Development) ==> r.body.stack.None?
    ensures r.Respond? && nodeEnv == Some(Development) ==> r.body.stack == err.stack
  {
    if headersSent then PassOn
    else
      var code := StatusOf(err);
      Respond(code, ErrorBody(false, MessageFor(code, err), if nodeEnv == Some(Development) then err.stack else None))
  }

  /** Outside development, two errors that both end in a 500 get the same
      answer, whatever their messages and stacks say. */
  lemma ServerErrorsLookAlike(e1: Err, e2: Err, nodeEnv: Option<string>)
    requires StatusOf(e1) == 500 && StatusOf(e2) == 500 && nodeEnv != Some(Development)
    ensures HandleError(e1, false, nodeEnv) == HandleError(e2, false, nodeEnv)
  {
  }

  /** An error without a status is a 500 and never shows its message. */
  lemma UnstatusedErrorIsHidden(err: Err, nodeEnv: Option<string>)
    requires !IsSetCode(err.statusCode) && !IsSetCode(err.status)
    ensures HandleError(err, false, nodeEnv) == Respond(500, ErrorBody(false, ServerError,
      if nodeEnv == Some(Development) then err.stack else None))
  {
  }
}
