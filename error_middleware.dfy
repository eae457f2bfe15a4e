/** The central error handler: it maps a thrown error to the status and message of the error
    response, first by the error's `code`, then by its `name`, and otherwise from its own
    status code and message. */
module ErrorMiddleware {
  import opened Wrappers
  import opened JsText
  import opened Http

  /** The properties of a thrown error that the handler reads. `validationMessages` are the
      `message`s of the entries of `err.errors`, in enumeration order. */
  datatype ErrorInfo = ErrorInfo(
    code: Option<string>,
    name: Option<string>,
    message: Option<string>,
    statusCode: Option<int>,
    validationMessages: seq<string>)

  const DuplicateEntry: string := "Duplicate entry found"
  const TableNotFound: string := "Database table not found"
  const ConnectionFailed: string := "Database connection failed"
  const InvalidToken: string := "Invalid token"
  const TokenExpired: string := "Token expired"
  const InternalServerError: string := "Internal server error"
  const ServerError: string := "Server Error"

  predicate IsConnectionCode(code: Option<string>) {
    code == Some("ECONNREFUSED") || code == Some("PROTOCOL_CONNECTION_LOST")
  }

  /** The codes the handler recognises, checked before any name. */
  predicate HasKnownCode(err: ErrorInfo) {
    err.code == Some("ER_DUP_ENTRY") || err.code == Some("ER_NO_SUCH_TABLE") || IsConnectionCode(err.code)
  }

  /** The names the handler recognises. */
  predicate HasKnownName(err: ErrorInfo) {
    err.name == Some("JsonWebTokenError") || err.name == Some("TokenExpiredError") || err.name == Some("ValidationError")
  }

  /** `error.statusCode || 500`. */
  function DefaultStatus(statusCode: Option<int>): (status: int)
    ensures status != 0
    ensures statusCode.Some? && statusCode.value != 0 ==> status == statusCode.value
  {
    if statusCode.Some? && statusCode.value != 0 then statusCode.value else 500
  }

  /** The response the handler sends for `err` when NODE_ENV is `nodeEnv`. */
  function HandleError(err: ErrorInfo, nodeEnv: Option<string>): ErrorResponse {
    if err.code == Some("ER_DUP_ENTRY") then ErrorResponse(400, DuplicateEntry)
    else if err.code == Some("ER_NO_SUCH_TABLE") then ErrorResponse(500, TableNotFound)
    else if IsConnectionCode(err.code) then ErrorResponse(500, ConnectionFailed)
    else if err.name == Some("JsonWebTokenError") then ErrorResponse(401, InvalidToken)
    else if err.name == Some("TokenExpiredError") then ErrorResponse(401, TokenExpired)
    else if err.name == Some("ValidationError") then ErrorResponse(400, Join(err.validationMessages, ", "))
    else
      var status := DefaultStatus(err.statusCode);
      var message :=
        if nodeEnv == Some("production") && status == 500 then InternalServerError
        else if Given(err.message) then err.message.value
        else ServerError;
      ErrorResponse(status, message)
  }

  /** A recognised code decides the response whatever the error's name, message or status. */
  lemma CodeBeforeName(err: ErrorInfo, other: ErrorInfo, nodeEnv: Option<string>)
    requires HasKnownCode(err) && other.code == err.code
    ensures HandleError(err, nodeEnv) == HandleError(other, nodeEnv)
    ensures HandleError(err, nodeEnv).status == (if err.code == Some("ER_DUP_ENTRY") then 400 else 500)
  {
  }

  /** Without a recognised code, the two token errors answer 401 and a validation error
      answers 400 with its entries' messages joined by ", ". */
  lemma NamedErrors(err: ErrorInfo, nodeEnv: Option<string>)
    requires !HasKnownCode(err)
    ensures err.name == Some("JsonWebTokenError") ==> HandleError(err, nodeEnv) == ErrorResponse(401, InvalidToken)
    ensures err.name == Some("TokenExpiredError") ==> HandleError(err, nodeEnv) == ErrorResponse(401, TokenExpired)
    ensures err.name == Some("ValidationError") ==>
      HandleError(err, nodeEnv) == ErrorResponse(400, Join(err.validationMessages, ", "))
    ensures err.name == Some("ValidationError") && |err.validationMessages| == 1 ==>
      HandleError(err, nodeEnv).message == err.validationMessages[0]
  {
  }

  /** Any other error keeps its own status, or 500 when it has none (or 0); its own message is
      sent, or "Server Error" when it has none, except that a 500 in production always says
      "Internal server error", so no detail of it reaches the client. */
  lemma DefaultHandling(err: ErrorInfo, nodeEnv: Option<string>)
    requires !HasKnownCode(err) && !HasKnownName(err)
    ensures HandleError(err, nodeEnv).status ==
      (if err.statusCode.Some? && err.statusCode.value != 0 then err.statusCode.value else 500)
    ensures nodeEnv == Some("production") && HandleError(err, nodeEnv).status == 500 ==>
      HandleError(err, nodeEnv).message == InternalServerError
    ensures nodeEnv != Some("production") || HandleError(err, nodeEnv).status != 500 ==>
      HandleError(err, nodeEnv).message == (if Given(err.message) then err.message.value else ServerError)
  {
  }

  /** The status is 400, 401 or 500, or the error's own non-zero status code; it is never 0. */
  lemma StatusClassification(err: ErrorInfo, nodeEnv: Option<string>)
    ensures var s := HandleError(err, nodeEnv).status;
      s != 0 && (s in {400, 401, 500} || (err.statusCode == Some(s) && !HasKnownCode(err) && !HasKnownName(err)))
  {
  }

  /** In production, an error answered with 500 never carries its own message, unless the
      message happens to be one of the handler's fixed texts. */
  lemma NoLeakInProduction(err: ErrorInfo)
    ensures var r := HandleError(err, Some("production"));
      r.status == 500 ==> r.message in {TableNotFound, ConnectionFailed, InternalServerError}
  {
  }
}
