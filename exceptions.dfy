/** The error taxonomy: `BasePaymentException` (an `HttpException` carrying a status
    code, an error code and optional details) and its thirteen subclasses, each of
    which fixes its status, its error code and a default message; and the shapes a
    thrown value can take when it reaches a `catch` block or the exception filter. */
module Exceptions {
  import opened Wrappers
  import opened JsText

  /** A `Record<string, unknown>` payload, kept opaque; its fields are strings or
      arrays of strings. */
  datatype Details = Details(fields: map<string, BodyMessage>)

  /** HTTP status codes used by the exceptions (section 15 of RFC 9110). */
  const BAD_REQUEST := 400
  const UNAUTHORIZED := 401
  const PAYMENT_REQUIRED := 402
  const NOT_FOUND := 404
  const REQUEST_TIMEOUT := 408
  const CONFLICT := 409
  const INTERNAL_SERVER_ERROR := 500
  const BAD_GATEWAY := 502
  const SERVICE_UNAVAILABLE := 503

  datatype ExceptionClass =
    | BasePayment
      // payment.exception.ts
    | InsufficientFunds | InvalidPhoneNumber | DuplicateTransaction | PaymentTimeout
    | TransactionNotFound
      // authentication.exception.ts
    | Authentication | InvalidCredentials | TokenExpired
      // idempotency.exception.ts
    | Idempotency | MissingIdempotencyKey | InvalidIdempotencyKey
      // webhook.exception.ts
    | Webhook | InvalidSignature | ReplayAttack

  /** The subclasses of BasePaymentException. */
  type Subclass = c: ExceptionClass | c != BasePayment witness InsufficientFunds

  /** An instance of BasePaymentException or of one of its subclasses. */
  datatype PaymentException = PaymentException(
    cls: ExceptionClass,
    message: string,
    statusCode: int,
    errorCode: Option<string>,
    details: Option<Details>)

  /** The status each subclass passes to its base constructor. */
  function SubclassStatus(c: Subclass): (s: int)
    ensures 400 <= s < 500
  {
    match c
    case InsufficientFunds => PAYMENT_REQUIRED
    case InvalidPhoneNumber => BAD_REQUEST
    case DuplicateTransaction => CONFLICT
    case PaymentTimeout => REQUEST_TIMEOUT
    case TransactionNotFound => NOT_FOUND
    case Authentication => UNAUTHORIZED
    case InvalidCredentials => UNAUTHORIZED
    case TokenExpired => UNAUTHORIZED
    case Idempotency => BAD_REQUEST
    case MissingIdempotencyKey => BAD_REQUEST
    case InvalidIdempotencyKey => BAD_REQUEST
    case Webhook => BAD_REQUEST
    case InvalidSignature => UNAUTHORIZED
    case ReplayAttack => BAD_REQUEST
  }

  /** The error code each subclass passes to its base constructor. */
  function SubclassErrorCode(c: Subclass): string {
    match c
    case InsufficientFunds => "INSUFFICIENT_FUNDS"
    case InvalidPhoneNumber => "INVALID_PHONE_NUMBER"
    case DuplicateTransaction => "DUPLICATE_TRANSACTION"
    case PaymentTimeout => "PAYMENT_TIMEOUT"
    case TransactionNotFound => "TRANSACTION_NOT_FOUND"
    case Authentication => "AUTHENTICATION_FAILED"
    case InvalidCredentials => "INVALID_CREDENTIALS"
    case TokenExpired => "TOKEN_EXPIRED"
    case Idempotency => "IDEMPOTENCY_ERROR"
    case MissingIdempotencyKey => "MISSING_IDEMPOTENCY_KEY"
    case InvalidIdempotencyKey => "INVALID_IDEMPOTENCY_KEY"
    case Webhook => "WEBHOOK_ERROR"
    case InvalidSignature => "INVALID_SIGNATURE"
    case ReplayAttack => "REPLAY_ATTACK"
  }

  /** The message a subclass uses when its constructor is given none. */
  function DefaultMessage(c: Subclass): string {
    match c
    case InsufficientFunds => "Insufficient funds"
    case InvalidPhoneNumber => "Invalid phone number format"
    case DuplicateTransaction => "Duplicate transaction detected"
    case PaymentTimeout => "Payment request timed out"
    case TransactionNotFound => "Transaction not found"
    case Authentication => "Authentication failed"
    case InvalidCredentials => "Invalid credentials provided"
    case TokenExpired => "Access token has expired"
    case Idempotency => "Idempotency key error"
    case MissingIdempotencyKey => "Idempotency-Key header is required"
    case InvalidIdempotencyKey => "Invalid idempotency key format (expected UUID v4)"
    case Webhook => "Webhook validation failed"
    case InvalidSignature => "Invalid webhook signature"
    case ReplayAttack => "Webhook timestamp is too old (replay attack detected)"
  }

  /** `new BasePaymentException(message, statusCode, errorCode, details)`; an
      omitted status is the default parameter, 400. */
  function NewBasePaymentException(message: string, statusCode: Option<int>,
                                   errorCode: Option<string>, details: Option<Details>): (e: PaymentException)
    ensures e.cls == BasePayment && e.message == message
    ensures e.statusCode == if statusCode.Some? then statusCode.value else BAD_REQUEST
    ensures e.errorCode == errorCode && e.details == details
  {
    PaymentException(BasePayment, message, statusCode.GetOr(BAD_REQUEST), errorCode, details)
  }

  /** `new C(message)` for a subclass C; `None` takes the class's default message. */
  function Raise(c: Subclass, message: Option<string>): (e: PaymentException)
    ensures e.cls == c && e.statusCode == SubclassStatus(c)
    ensures e.errorCode == Some(SubclassErrorCode(c)) && e.details == None
    ensures e.message == if message.Some? then message.value else DefaultMessage(c)
  {
    PaymentException(c, message.GetOr(DefaultMessage(c)), SubclassStatus(c), Some(SubclassErrorCode(c)), None)
  }

  /** The error code names the subclass: no two subclasses share one. */
  lemma ErrorCodeDeterminesClass(c1: Subclass, c2: Subclass)
    requires SubclassErrorCode(c1) == SubclassErrorCode(c2)
    ensures c1 == c2
  {
  }

  /** A JSON body field: a string or an array of strings. It is also the shape
      of an `HttpException`'s message: its string response, or the `message` of
      its object response. */
  datatype BodyMessage = Text(text: string) | Lines(lines: seq<string>)

  /** JavaScript truthiness of a body field: a non-empty string, or any array
      (an empty array included). */
  predicate FieldTruthy(v: Option<BodyMessage>) {
    v.Some? && (v.value.Lines? || v.value.text != "")
  }

  /** The `message` of an `HttpException` built from an object response: the
      response's `message` when it is a string, else the class name split into
      words. */
  const HTTP_EXCEPTION_NAME := "Http Exception"

  function ExceptionText(m: BodyMessage): (t: string)
    ensures m.Text? ==> t == m.text
    ensures m.Lines? ==> t == HTTP_EXCEPTION_NAME
  {
    match m
    case Text(s) => s
    case Lines(_) => HTTP_EXCEPTION_NAME
  }

  /** `String(v)` of a body field: an array's elements joined with ','. */
  function FieldString(m: BodyMessage): string {
    match m
    case Text(s) => s
    case Lines(ls) => Join(ls, ",")
  }

  /** What `HttpException.getResponse()` returns. */
  datatype ExceptionBody =
    | StringBody(text: string)
    | ObjectBody(statusCode: Option<int>, message: Option<BodyMessage>, error: Option<string>,
                 errorCode: Option<string>, details: Option<Details>)

  /** The response object BasePaymentException hands to `HttpException`: status,
      message, error code and details (and a timestamp, which is not modelled). It
      has no `error` field. */
  function ResponseOf(e: PaymentException): (b: ExceptionBody)
    ensures b.ObjectBody? && b.statusCode == Some(e.statusCode) && b.error.None?
    ensures b.message == Some(Text(e.message)) && b.errorCode == e.errorCode && b.details == e.details
  {
    ObjectBody(Some(e.statusCode), Some(Text(e.message)), None, e.errorCode, e.details)
  }

  /** A thrown value, as a `catch` block sees it. */
  datatype Thrown =
    | PaymentError(exception: PaymentException)                  // instanceof BasePaymentException
    | HttpError(status: int, body: ExceptionBody, text: string)   // another HttpException; `text` is its `message`
    | PlainError(message: string)                                 // an Error that is not an HttpException
    | NonError                                                    // a thrown value that is not an Error

  /** `(error as Error).message`; `undefined` for a value that is not an Error. */
  function ErrorMessage(t: Thrown): Option<string> {
    match t
    case PaymentError(e) => Some(e.message)
    case HttpError(_, _, text) => Some(text)
    case PlainError(m) => Some(m)
    case NonError => None
  }
}
