/** The error middleware: every error that reaches it becomes one JSON
    reply, whose status and body depend on the error's fields and on whether
    the server runs in development mode. */
module ErrorMiddleware {
  import opened Common

  /** The JSON body sent; an absent field is left out of the JSON. */
  datatype ErrorBody = ErrorBody(
    success: bool,
    error: string,
    requestId: Option<string>,
    code: Option<string>,
    stack: Option<string>,
    details: Option<Json>)

  datatype ErrorReply = ErrorReply(status: int, body: ErrorBody)

  /** `errorMiddleware`: `requestId` is the id the request-id middleware gave
      the request, `development` whether NODE_ENV is "development". */
  function HandleError(err: JsError, requestId: Option<string>, development: bool): (r: ErrorReply)
    ensures err.status.Some? && err.status.value != 0 ==> r.status == err.status.value
    ensures err.status.None? || err.status.value == 0 ==> r.status == 500
    ensures !r.body.success && r.body.requestId == requestId
    ensures err.name == "ValidationError" ==> r.body.error == "Validation Error" && r.body.details == err.details
    ensures err.name == "SyntaxError" && err.parseType == Some("entity.parse.failed") ==> r.body.error == "Invalid JSON"
    ensures err.name != "ValidationError" && !(err.name == "SyntaxError" && err.parseType == Some("entity.parse.failed")) ==>
              r.body.error == (if err.message != "" then err.message else "Internal Server Error")
    ensures r.body.code == (if development then err.code else None)
    ensures r.body.stack == (if development then err.stack else None)
    ensures err.name != "ValidationError" ==> r.body.details == (if development then err.details else None)
  {
    var status := if err.status.Some? && err.status.value != 0 then err.status.value else 500;
    var base := ErrorBody(false, StrOr(err.message, "Internal Server Error"), requestId, None, None, None);
    var detailed := if development then base.(code := err.code, stack := err.stack, details := err.details) else base;
    var body :=
      if err.name == "ValidationError" then detailed.(error := "Validation Error", details := err.details)
      else if err.name == "SyntaxError" && err.parseType == Some("entity.parse.failed") then detailed.(error := "Invalid JSON")
      else detailed;
    ErrorReply(status, body)
  }

  /** Outside development mode nothing internal leaks: no code, no stack,
      and details only for a validation error. */
  lemma ProductionHidesInternals(err: JsError, requestId: Option<string>)
    ensures var r := HandleError(err, requestId, false);
      && r.body.code.None? && r.body.stack.None?
      && (r.body.details.Some? ==> err.name == "ValidationError")
  {
  }
}
