/**
 * Responses the core produces: the wrapping of a handler's return value
 * (bolt/app.py, lines 275-281) and the three exception handlers that turn an
 * escaped exception into a JSON error response (lines 137-147).
 */
module Responses {
  import opened Wrappers
  import opened Runtime
  import opened Background

  /** A response body: a value to be JSON-encoded, or one of the handlers' error objects. */
  datatype Content = Payload(v: Value) | ErrorObject(fields: seq<(string, string)>)

  /** What Starlette runs after sending: a collector's `execute`, or a callback of the handler's own. */
  datatype Callback = RunTasks(tasks: seq<Task>) | ForeignCallback(id: nat)

  datatype Response = Response(status: int, content: Content, background: Option<Callback>)

  /** A handler's return value: a ready `Response`, or anything else. */
  datatype Ret = AResponse(r: Response) | Plain(v: Value)

  /** `FastJSONResponse(content)` with Starlette's default status. */
  function JsonResponse(v: Value): Response {
    Response(200, Payload(v), None)
  }

  /**
   * Lines 275-281: a `Response` passes through, anything else is wrapped;
   * `collected` is the injected collector's task list, if one was injected,
   * and only a non-empty list becomes the response's background (replacing
   * any background the handler's own response carried).
   */
  function Normalize(ret: Ret, collected: Option<seq<Task>>): (r: Response)
    ensures ret.AResponse? ==> r.status == ret.r.status && r.content == ret.r.content
    ensures ret.Plain? ==> r.status == 200 && r.content == Payload(ret.v)
    ensures (collected.Some? && collected.value != []) ==> r.background == Some(RunTasks(collected.value))
    ensures !(collected.Some? && collected.value != []) ==>
      r.background == (if ret.AResponse? then ret.r.background else None)
  {
    var response := match ret
      case AResponse(resp) => resp
      case Plain(v) => JsonResponse(v);
    if collected.Some? && |collected.value| > 0 then response.(background := Some(RunTasks(collected.value)))
    else response
  }

  /** `http_exception_handler`: the exception's own status, body `{"error": detail}`. */
  function HttpExceptionResponse(status: int, detail: string): Response {
    Response(status, ErrorObject([("error", detail)]), None)
  }

  /** `validation_exception_handler`: 422 with the validation message under "detail". */
  function ValidationResponse(detail: string): Response {
    Response(422, ErrorObject([("error", "Validation Error"), ("detail", detail)]), None)
  }

  /** `server_error_handler`: 500 and nothing of the exception reaches the client. */
  function ServerErrorResponse(): Response {
    Response(500, ErrorObject([("error", "Internal Server Error")]), None)
  }

  /**
   * Starlette picks the handler registered for the exception's class, so an
   * HTTPException and a ValidationError get their own handlers and everything
   * else, ValueError included, falls to the `Exception` handler.
   */
  function ErrorResponse(e: Exc): (r: Response)
    ensures r.content.ErrorObject? && |r.content.fields| >= 1 && r.content.fields[0].0 == "error"
    ensures r.background.None?
    ensures e.HttpExc? ==> r.status == e.status && r.content.fields == [("error", e.detail)]
    ensures e.ValidationExc? ==> r.status == 422 && r.content.fields == [("error", "Validation Error"), ("detail", e.detail)]
    ensures !e.HttpExc? && !e.ValidationExc? ==> r.status == 500 && r.content.fields == [("error", "Internal Server Error")]
  {
    match e
    case HttpExc(status, detail) => HttpExceptionResponse(status, detail)
    case ValidationExc(detail) => ValidationResponse(detail)
    case _ => ServerErrorResponse()
  }

  /** The 500 response is the same whatever the exception said: no detail leaks. */
  lemma ServerErrorHidesDetail(e1: Exc, e2: Exc)
    requires !e1.HttpExc? && !e1.ValidationExc?
    requires !e2.HttpExc? && !e2.ValidationExc?
    ensures ErrorResponse(e1) == ErrorResponse(e2)
  {
  }
}
