/** HttpService: the HTTP client the provider talks through. It resolves request
    URLs against the configured base URL, fixes the timeout, turns transport
    failures into HTTP exceptions with the status codes of section 15 of RFC 9110,
    attaches the access token as a bearer credential (section 2.1 of RFC 6750)
    and drops the cached token when the provider answers 401. */
module HttpService {
  import opened Wrappers
  import opened JsText
  import opened Exceptions
  import AuthService

  const DEFAULT_TIMEOUT := 30000

  /** `url.startsWith('http') ? url : baseUrl + url` */
  function FullUrl(baseUrl: string, url: string): (r: string)
    ensures StartsWith(url, "http") ==> r == url
    ensures !StartsWith(url, "http") ==> r == baseUrl + url
  {
    if StartsWith(url, "http") then url else baseUrl + url
  }

  /** With a base URL that is itself absolute, every resolved URL is absolute and
      resolving it again changes nothing. */
  lemma FullUrlIdempotent(baseUrl: string, url: string)
    requires StartsWith(baseUrl, "http")
    ensures StartsWith(FullUrl(baseUrl, url), "http")
    ensures FullUrl(baseUrl, FullUrl(baseUrl, url)) == FullUrl(baseUrl, url)
  {
    if !StartsWith(url, "http") {
      assert (baseUrl + url)[..4] == baseUrl[..4];
    }
  }

  /** `config?.timeout || 30000`: a missing or zero timeout is the default. */
  function RequestTimeout(configured: Option<int>): (t: int)
    ensures t != 0
    ensures configured.Some? && configured.value != 0 ==> t == configured.value
    ensures configured.None? || configured.value == 0 ==> t == DEFAULT_TIMEOUT
  {
    if configured.Some? && configured.value != 0 then configured.value else DEFAULT_TIMEOUT
  }

  /** The response part of a failed request: its status and its JSON body, whose
      string and string-array fields are kept by name. */
  datatype ErrorResponse = ErrorResponse(status: int, data: Option<map<string, BodyMessage>>)

  /** A transport error: the response when the server answered, the error code
      (`ECONNABORTED`, `ECONNREFUSED`, ...) and the error's message. */
  datatype TransportError = TransportError(response: Option<ErrorResponse>, code: Option<string>, message: string)

  /** `errorData?.[key]` */
  function Field(data: Option<map<string, BodyMessage>>, key: string): (r: Option<BodyMessage>)
    ensures r.Some? <==> data.Some? && key in data.value
    ensures r.Some? ==> r.value == data.value[key]
  {
    if data.Some? && key in data.value then Some(data.value[key]) else None
  }

  /** `a || b` over body fields. */
  function FieldOr(a: Option<BodyMessage>, b: BodyMessage): BodyMessage {
    if FieldTruthy(a) then a.value else b
  }

  /** The message of an answered request: the body's `message`, else its
      `detail`, else its `error`, else the transport error's own message. An empty
      string is skipped; an array, even an empty one, is taken as it is. */
  function ResponseMessage(data: Option<map<string, BodyMessage>>, fallback: string): (m: BodyMessage)
    ensures FieldTruthy(Field(data, "message")) ==> m == data.value["message"]
    ensures !FieldTruthy(Field(data, "message")) && FieldTruthy(Field(data, "detail")) ==> m == data.value["detail"]
    ensures !FieldTruthy(Field(data, "message")) && !FieldTruthy(Field(data, "detail")) && FieldTruthy(Field(data, "error")) ==>
      m == data.value["error"]
    ensures !FieldTruthy(Field(data, "message")) && !FieldTruthy(Field(data, "detail")) && !FieldTruthy(Field(data, "error")) ==>
      m == Text(fallback)
  {
    FieldOr(Field(data, "message"), FieldOr(Field(data, "detail"), FieldOr(Field(data, "error"), Text(fallback))))
  }

  /** `errorData?.error || 'External API Error'`, as the string the body's
      `error` holds. */
  function ErrorName(data: Option<map<string, BodyMessage>>): (n: string)
    ensures FieldTruthy(Field(data, "error")) ==> n == FieldString(data.value["error"])
    ensures !FieldTruthy(Field(data, "error")) ==> n == "External API Error"
  {
    FieldString(FieldOr(Field(data, "error"), Text("External API Error")))
  }

  /** `ECONNABORTED`, or a message that mentions `timeout` (case-sensitively). */
  predicate IsTimeout(error: TransportError) {
    error.code == Some("ECONNABORTED") || Includes(error.message, "timeout")
  }

  /** `handleError`: the HttpException a transport error becomes. */
  function HandleError(error: TransportError): (e: Thrown)
    ensures e.HttpError? && e.body.ObjectBody? && e.body.statusCode == Some(e.status)
    ensures e.body.errorCode.None? && e.body.message.Some? && e.text == ExceptionText(e.body.message.value)
    ensures error.response.None? ==> e.body.message == Some(Text(e.text))
    ensures error.response.Some? ==>
      && e.status == error.response.value.status
      && e.body.message == Some(ResponseMessage(error.response.value.data, error.message))
      && e.body.error == Some(ErrorName(error.response.value.data))
      && e.body.details == (if error.response.value.data.Some? then Some(Details(error.response.value.data.value)) else None)
    ensures error.response.None? && IsTimeout(error) ==>
      e.status == 408 && e.text == "Request timed out" && e.body.error == Some("Gateway Timeout")
    ensures error.response.None? && !IsTimeout(error) && error.code == Some("ECONNREFUSED") ==>
      e.status == 503 && e.text == "Service unavailable" && e.body.error == Some("Connection Refused")
    ensures error.response.None? && !IsTimeout(error) && error.code != Some("ECONNREFUSED") ==>
      e.status == 502 && e.text == Or(Some(error.message), "Network error") && e.body.error == Some("Bad Gateway")
  {
    match error.response
    case Some(response) =>
      var message := ResponseMessage(response.data, error.message);
      var details := if response.data.Some? then Some(Details(response.data.value)) else None;
      HttpError(response.status,
                ObjectBody(Some(response.status), Some(message), Some(ErrorName(response.data)), None, details),
                ExceptionText(message))
    case None =>
      if IsTimeout(error) then
        HttpError(REQUEST_TIMEOUT, ObjectBody(Some(REQUEST_TIMEOUT), Some(Text("Request timed out")), Some("Gateway Timeout"), None, None),
                  "Request timed out")
      else if error.code == Some("ECONNREFUSED") then
        HttpError(SERVICE_UNAVAILABLE, ObjectBody(Some(SERVICE_UNAVAILABLE), Some(Text("Service unavailable")), Some("Connection Refused"), None, None),
                  "Service unavailable")
      else
        var message := Or(Some(error.message), "Network error");
        HttpError(BAD_GATEWAY, ObjectBody(Some(BAD_GATEWAY), Some(Text(message)), Some("Bad Gateway"), None, None), message)
  }

  /** A transport error without a response is a client-side timeout (408) or a
      server-side failure (502 or 503), never anything else. */
  lemma UnansweredStatuses(error: TransportError)
    requires error.response.None?
    ensures var e := HandleError(error);
      e.status == 408 || e.status == 502 || e.status == 503
    ensures HandleError(error).status == 408 <==> IsTimeout(error)
  {
  }

  /** The timeout test comes first: an aborted connection that is also refused is
      a timeout. */
  lemma TimeoutBeforeRefused(message: string)
    ensures HandleError(TransportError(None, Some("ECONNABORTED"), message)).status == 408
  {
  }

  /** What `request` resolves to: the body, or the HttpException of the failure. */
  function RequestResult<T>(outcome: Result<T, TransportError>): (r: Result<T, Thrown>)
    ensures outcome.Success? ==> r == Success(outcome.value)
    ensures outcome.Failure? ==> r.Failure? && r.error == HandleError(outcome.error) && r.error.HttpError?
  {
    match outcome
    case Success(data) => Success(data)
    case Failure(e) => Failure(HandleError(e))
  }

  /** The parts of an outgoing request the request interceptor reads and writes. */
  class RequestConfig {
    var url: Option<string>
    var skipAuth: bool
    var authorization: Option<string>

    constructor(url: Option<string>, skipAuth: bool, authorization: Option<string>)
      ensures this.url == url && this.skipAuth == skipAuth && this.authorization == authorization
    {
      this.url := url;
      this.skipAuth := skipAuth;
      this.authorization := authorization;
    }

    /** The token request itself, a request marked `skipAuth`, and one that
        already carries credentials go out as they are. */
    predicate SkipsAuth()
      reads this
    {
      (url.Some? && Includes(url.value, "/auth/token")) || skipAuth || Truthy(authorization)
    }
  }

  /** What the request interceptor does with a request: send it, hold it until
      the refresh in flight ends, or fail it with the token error. */
  datatype Interception = Proceed | AwaitToken | Abort(error: PaymentException)

  /** The `Authorization` value for a token. */
  function BearerCredentials(token: string): (h: string)
    ensures StartsWith(h, "Bearer ") && h[7..] == token
  {
    "Bearer " + token
  }

  /** The request interceptor. A request that skips authentication is left as it
      is and no token is asked for; otherwise the token is asked for and, when it
      is at hand, set as the bearer credential. */
  method AuthorizeRequest(config: RequestConfig, auth: AuthService.AuthService, now: int) returns (r: Interception)
    modifies config, auth
    ensures old(config.SkipsAuth()) ==>
      r == Proceed && config.authorization == old(config.authorization) && unchanged(auth)
    ensures !old(config.SkipsAuth()) && r.Proceed? ==>
      old(auth.IsTokenValid(now))
      && config.authorization == Some(BearerCredentials(old(auth.cachedToken).value.accessToken))
    ensures !old(config.SkipsAuth()) && r.AwaitToken? ==>
      config.authorization == old(config.authorization) && auth.refreshInFlight && !old(auth.IsTokenValid(now))
    ensures !old(config.SkipsAuth()) && r.Abort? ==>
      config.authorization == old(config.authorization) && !auth.CredentialsConfigured()
      && r.error == Raise(InvalidCredentials, Some(AuthService.CREDENTIALS_NOT_CONFIGURED))
    ensures config.url == old(config.url) && config.skipAuth == old(config.skipAuth)
  {
    if config.SkipsAuth() {
      return Proceed;
    }
    var access := auth.GetAccessToken(now);
    match access
    case Token(token) =>
      config.authorization := Some(BearerCredentials(token));
      r := Proceed;
    case AwaitRefresh =>
      r := AwaitToken;
    case Rejected(e) =>
      r := Abort(e);
  }

  /** The response interceptor's error path: a 401 answer clears the token cache;
      the error goes on to the caller either way. */
  method OnResponseError(error: TransportError, auth: AuthService.AuthService) returns (e: TransportError)
    modifies auth
    ensures e == error
    ensures error.response.Some? && error.response.value.status == 401 ==>
      auth.cachedToken.None? && forall t :: !auth.IsAuthenticated(t)
    ensures !(error.response.Some? && error.response.value.status == 401) ==> unchanged(auth)
    ensures auth.refreshInFlight == old(auth.refreshInFlight)
  {
    if error.response.Some? && error.response.value.status == 401 {
      auth.ClearCache();
    }
    e := error;
  }
}
