/** GlobalExceptionFilter: every exception that leaves a route becomes one JSON
    error body, sent with the status the body names. */
module ExceptionFilter {
  import opened Wrappers
  import opened JsText
  import opened Exceptions
  import HttpService

  const DEFAULT_MESSAGE := "Internal server error"
  const DEFAULT_ERROR := "Internal Server Error"

  /** The JSON error body; `errorCode` and `details` are keys that may be absent. */
  datatype ErrorBody = ErrorBody(
    statusCode: int,
    message: string,
    error: string,
    errorCode: Option<string>,
    details: Option<Details>,
    timestamp: string,
    path: string,
    httpMethod: string)

  /** The status, `getStatus()` for an HttpException and 500 for anything else. */
  function StatusOf(exception: Thrown): (s: int)
    ensures exception.PaymentError? ==> s == exception.exception.statusCode
    ensures exception.HttpError? ==> s == exception.status
    ensures exception.PlainError? || exception.NonError? ==> s == INTERNAL_SERVER_ERROR
  {
    match exception
    case PaymentError(e) => e.statusCode
    case HttpError(status, _, _) => status
    case _ => INTERNAL_SERVER_ERROR
  }

  /** `getResponse()` of an HttpException; `None` for anything else. */
  function ResponseBody(exception: Thrown): (b: Option<ExceptionBody>)
    ensures b.Some? <==> exception.PaymentError? || exception.HttpError?
  {
    match exception
    case PaymentError(e) => Some(ResponseOf(e))
    case HttpError(_, body, _) => Some(body)
    case _ => None
  }

  /** The message of an object response: an array joined with ", ", otherwise
      the text when it is not empty, otherwise the default. */
  function BodyText(message: Option<BodyMessage>): (m: string)
    ensures message.Some? && message.value.Lines? ==> m == Join(message.value.lines, ", ")
    ensures message.Some? && message.value.Text? && message.value.text != "" ==> m == message.value.text
    ensures message.None? || message == Some(Text("")) ==> m == DEFAULT_MESSAGE
  {
    match message
    case None => DEFAULT_MESSAGE
    case Some(Lines(lines)) => Join(lines, ", ")
    case Some(Text(t)) => if t != "" then t else DEFAULT_MESSAGE
  }

  /** `catch`: the error body for an exception, a request path and method, and
      the time it is stamped with. */
  function ErrorResponse(exception: Thrown, path: string, httpMethod: string, timestamp: string): (b: ErrorBody)
    ensures b.statusCode == StatusOf(exception) && b.path == path && b.httpMethod == httpMethod && b.timestamp == timestamp
    ensures exception.NonError? ==>
      b.message == DEFAULT_MESSAGE && b.error == DEFAULT_ERROR && b.errorCode.None? && b.details.None?
    ensures exception.PlainError? ==>
      b.message == exception.message && b.error == DEFAULT_ERROR && b.errorCode.None? && b.details.None?
    ensures exception.HttpError? && exception.body.StringBody? ==>
      b.message == exception.body.text && b.error == DEFAULT_ERROR && b.errorCode.None? && b.details.None?
    ensures ResponseBody(exception).Some? && ResponseBody(exception).value.ObjectBody? ==>
      var r := ResponseBody(exception).value;
      && b.message == BodyText(r.message)
      && b.error == Or(r.error, DEFAULT_ERROR)
      && b.errorCode == (if Truthy(r.errorCode) then r.errorCode else None)
      && b.details == r.details
  {
    var status := StatusOf(exception);
    match ResponseBody(exception)
    case Some(StringBody(text)) => ErrorBody(status, text, DEFAULT_ERROR, None, None, timestamp, path, httpMethod)
    case Some(ObjectBody(_, message, error, errorCode, details)) =>
      ErrorBody(status, BodyText(message), Or(error, DEFAULT_ERROR),
                if Truthy(errorCode) then errorCode else None, details, timestamp, path, httpMethod)
    case None =>
      var message := if exception.PlainError? then exception.message else DEFAULT_MESSAGE;
      ErrorBody(status, message, DEFAULT_ERROR, None, None, timestamp, path, httpMethod)
  }

  /** A payment exception reaches the client with its own status, message,
      error code and details; since its response carries no `error` field, the
      `error` of the body reads "Internal Server Error" whatever the status. */
  lemma PaymentExceptionBody(c: Subclass, message: string, path: string, httpMethod: string, timestamp: string)
    requires message != ""
    ensures var b := ErrorResponse(PaymentError(Raise(c, Some(message))), path, httpMethod, timestamp);
      && b.statusCode == SubclassStatus(c) && b.message == message
      && b.errorCode == Some(SubclassErrorCode(c)) && b.details.None?
      && b.error == DEFAULT_ERROR
  {
    assert SubclassErrorCode(c) != "";
  }

  /** An HTTP failure shaped by HttpService keeps its status, message and error
      name all the way to the client. */
  lemma TransportErrorBody(t: HttpService.TransportError, path: string, httpMethod: string, timestamp: string)
    requires t.response.None?
    ensures var e := HttpService.HandleError(t);
      var b := ErrorResponse(e, path, httpMethod, timestamp);
      && b.statusCode == e.status
      && (e.text != "" ==> b.message == e.text)
      && b.error == e.body.error.value
      && b.errorCode.None?
  {
  }

  /** The response the filter writes to. */
  class HttpResponse {
    var status: Option<int>
    var json: Option<ErrorBody>

    constructor()
      ensures status.None? && json.None?
    {
      status := None;
      json := None;
    }
  }

  /** `response.status(status).json(errorResponse)`: the status sent is the one
      the body names. */
  method Catch(exception: Thrown, path: string, httpMethod: string, timestamp: string, response: HttpResponse)
    modifies response
    ensures response.json == Some(ErrorResponse(exception, path, httpMethod, timestamp))
    ensures response.status == Some(response.json.value.statusCode) && response.status == Some(StatusOf(exception))
  {
    var body := ErrorResponse(exception, path, httpMethod, timestamp);
    response.status := Some(body.statusCode);
    response.json := Some(body);
  }
}
