/** The error-handling middleware (backend/middleware/error_handler.py):
    `dispatch` turns an exception escaping the downstream handler into a
    500 JSON response, and `handle_error` maps an exception to
    `{"error": {"code", "message", "id"}}`, hiding the text of 500s. */
module ErrorHandler {
  import opened Wrappers
  import opened Errors
  import opened Schema

  /** An HTTP response: its status code and body. */
  datatype Response = Response(status: int, body: Json)

  const InternalServerError := "Internal server error"

  /** `ErrorHandler.dispatch`: the downstream response, or the exception it raised. */
  function Dispatch(downstream: Result<Response, Exc>): (r: Response)
    ensures downstream.Ok? ==> r == downstream.value
    ensures downstream.Err? ==> r.status == 500
    ensures downstream.Err? ==> r.body == JObj(map[
      "detail" := JStr(InternalServerError),
      "message" := JStr(downstream.error.Str())])
  {
    match downstream
    case Ok(resp) => resp
    case Err(e) =>
      Response(500, JObj(map["detail" := JStr(InternalServerError), "message" := JStr(e.Str())]))
  }

  /** The status `handle_error` uses: the exception's `status_code` if it has one. */
  function ErrorStatus(exc: Exc): int {
    if exc.HasStatusCode() then exc.StatusCodeAttr() else 500
  }

  /** The message `handle_error` reports: `str(exc)`, except for 500s. */
  function ErrorMessage(exc: Exc): (m: string)
    ensures ErrorStatus(exc) == 500 ==> m == InternalServerError
    ensures ErrorStatus(exc) != 500 ==> m == exc.Str()
  {
    var status := ErrorStatus(exc);
    if status == 500 then InternalServerError else exc.Str()
  }

  /** `ErrorHandler.handle_error`. */
  function HandleError(exc: Exc): (r: Response)
    ensures r.status == ErrorStatus(exc)
    ensures r.body == JObj(map["error" := JObj(map[
      "code" := JInt(r.status),
      "message" := JStr(ErrorMessage(exc)),
      "id" := JNull])])
  {
    var status := ErrorStatus(exc);
    Response(status, JObj(map["error" := JObj(map[
      "code" := JInt(status),
      "message" := JStr(ErrorMessage(exc)),
      "id" := JNull])]))
  }

  /** The code in the body of a `handle_error` response. */
  function BodyCode(r: Response): Option<int> {
    if r.body.JObj? && "error" in r.body.fields && r.body.fields["error"].JObj?
       && "code" in r.body.fields["error"].fields && r.body.fields["error"].fields["code"].JInt?
    then Some(r.body.fields["error"].fields["code"].i)
    else None
  }

  /** The message in the body of a `handle_error` response. */
  function BodyMessage(r: Response): Option<string> {
    if r.body.JObj? && "error" in r.body.fields && r.body.fields["error"].JObj?
       && "message" in r.body.fields["error"].fields && r.body.fields["error"].fields["message"].JStr?
    then Some(r.body.fields["error"].fields["message"].s)
    else None
  }

  /** The HTTP status always equals the code in the body; exceptions without a
      status code become 500. */
  lemma HandleErrorStatusMatchesBody(exc: Exc)
    ensures BodyCode(HandleError(exc)) == Some(HandleError(exc).status)
    ensures !exc.HasStatusCode() ==> HandleError(exc).status == 500
    ensures exc.App? ==> HandleError(exc).status == exc.err.StatusCode()
  {
  }

  /** The message is hidden exactly for status 500 (for exceptions whose own
      text is not already the generic one). */
  lemma HandleErrorRedactsIff500(exc: Exc)
    requires exc.Str() != InternalServerError
    ensures BodyMessage(HandleError(exc)) == Some(InternalServerError) <==> HandleError(exc).status == 500
  {
  }

  /** EvaluationError and DatabaseError are always redacted; application
      errors with a 4xx code keep their detail. */
  lemma HandleErrorByKind(e: AppError)
    ensures e.EvaluationError? || e.DatabaseError? ==>
      BodyMessage(HandleError(App(e))) == Some(InternalServerError)
    ensures 400 <= e.StatusCode() < 500 ==>
      BodyMessage(HandleError(App(e))) == Some(e.Detail())
  {
  }
}
