/** SasaPayProvider: each operation maps its request to the provider's wire
    format, posts it to the operation's fixed endpoint through HttpService and
    maps the answer back; any failure is rewrapped as a BasePaymentException
    naming the operation. */
module SasaPayProvider {
  import opened Wrappers
  import opened JsText
  import opened Exceptions
  import opened SasaPayDto
  import opened RequestMapper
  import opened ResponseMapper
  import opened HttpService
  import Worker

  const C2B_REQUEST_PAYMENT := "/payments/request-payment/"
  const B2C_SEND_MONEY := "/payments/b2c/"
  const B2B_TRANSFER := "/payments/b2b/"
  const BALANCE := "/payments/check-balance/"
  const TRANSACTION_STATUS := "/transactions/status-query/"

  const C2B_OPERATION := "C2B payment request"
  const B2C_OPERATION := "B2C payment"
  const B2B_OPERATION := "B2B transfer"
  const BALANCE_OPERATION := "Balance check"
  const STATUS_OPERATION := "Transaction status check"

  const MASK := "****"

  /** `maskPhoneNumber`: a number of fewer than four characters is hidden
      entirely, a longer one keeps only its last four. */
  function MaskPhoneNumber(phoneNumber: string): (r: string)
    ensures |phoneNumber| < 4 ==> r == MASK
    ensures |phoneNumber| >= 4 ==> r == MASK + phoneNumber[|phoneNumber| - 4..]
  {
    if |phoneNumber| < 4 then MASK else MASK + phoneNumber[|phoneNumber| - 4..]
  }

  /** The mask shows nothing but the last four characters: two numbers that end
      alike are masked alike, the mask never exceeds eight characters, and
      masking a mask changes nothing. */
  lemma MaskRevealsOnlyLastFour(p: string, q: string)
    requires |p| >= 4 && |q| >= 4 && p[|p| - 4..] == q[|q| - 4..]
    ensures MaskPhoneNumber(p) == MaskPhoneNumber(q)
    ensures |MaskPhoneNumber(p)| == 8 && MaskPhoneNumber(p)[..4] == MASK
    ensures MaskPhoneNumber(MaskPhoneNumber(p)) == MaskPhoneNumber(p)
  {
    var m := MaskPhoneNumber(p);
    assert m[|m| - 4..] == p[|p| - 4..];
  }

  /** `(response?.message as string) || error.message` for an HttpException: the
      text of an object body's non-empty message (an array message is
      stringified with commas), else the exception's own message. */
  function HttpErrorMessage(body: ExceptionBody, text: string): (m: string)
    ensures body.ObjectBody? && body.message.Some? && body.message.value.Text? && body.message.value.text != "" ==>
      m == body.message.value.text
    ensures body.ObjectBody? && body.message.Some? && body.message.value.Lines? ==> m == Join(body.message.value.lines, ",")
    ensures body.StringBody? || body.message.None? ==> m == text
  {
    match body
    case StringBody(_) => text
    case ObjectBody(_, message, _, _, _) =>
      match message
      case None => text
      case Some(Text(t)) => if t != "" then t else text
      case Some(Lines(lines)) => Join(lines, ",")
  }

  /** `handleProviderError`: a payment exception goes through unchanged; another
      HttpException keeps its status and details under the operation's message;
      anything else becomes a BasePaymentException with the default status. */
  function HandleProviderError(e: Thrown, operation: string): (x: PaymentException)
    ensures e.PaymentError? ==> x == e.exception
    ensures e.HttpError? ==>
      && x.cls == BasePayment && x.statusCode == e.status && x.errorCode.None?
      && x.message == operation + " failed: " + HttpErrorMessage(e.body, e.text)
      && x.details == (if e.body.ObjectBody? then e.body.details else None)
    ensures e.PlainError? ==>
      x.cls == BasePayment && x.statusCode == BAD_REQUEST && x.message == operation + " failed: " + e.message
    ensures e.NonError? ==>
      x.cls == BasePayment && x.statusCode == BAD_REQUEST && x.message == operation + " failed: undefined"
    ensures !e.PaymentError? ==> x.errorCode.None?
  {
    match e
    case PaymentError(p) => p
    case HttpError(status, body, text) =>
      NewBasePaymentException(operation + " failed: " + HttpErrorMessage(body, text), Some(status), None,
                              if body.ObjectBody? then body.details else None)
    case PlainError(message) => NewBasePaymentException(operation + " failed: " + message, None, None, None)
    case NonError => NewBasePaymentException(operation + " failed: undefined", None, None, None)
  }

  /** The catch block of every operation: a failed post ends as the payment
      exception of its HttpException. */
  function Complete<R, T>(operation: string, sent: Result<R, TransportError>, mapResponse: R -> T): (r: Result<T, Thrown>)
    ensures sent.Success? ==> r == Success(mapResponse(sent.value))
    ensures sent.Failure? ==> r == Failure(PaymentError(HandleProviderError(HandleError(sent.error), operation)))
  {
    match RequestResult(sent)
    case Success(response) => Success(mapResponse(response))
    case Failure(e) => Failure(PaymentError(HandleProviderError(e, operation)))
  }

  /** What a transport error becomes once the provider has rewrapped it: a
      BasePaymentException with the status HttpService chose and a message that
      names the operation. */
  lemma ProviderFailureShape(t: TransportError, operation: string)
    ensures var x := HandleProviderError(HandleError(t), operation);
      && x.cls == BasePayment && x.statusCode == HandleError(t).status && x.errorCode.None?
      && x.message == operation + " failed: "
                      + (match HandleError(t).body.message.value
                         case Lines(lines) => Join(lines, ",")
                         case Text(_) => HandleError(t).text)
  {
  }

  /** A provider that answers with an array of messages (a validation error)
      has them joined with ',' in the message of the payment exception. */
  lemma ArrayMessageJoined(t: TransportError, operation: string, lines: seq<string>)
    requires t.response.Some? && Field(t.response.value.data, "message") == Some(Lines(lines))
    ensures HandleProviderError(HandleError(t), operation).message == operation + " failed: " + Join(lines, ",")
  {
  }

  /** A provider timeout is a 408, so the worker gives up on the job at once. */
  lemma TimeoutIsUnrecoverable(t: TransportError, operation: string)
    requires t.response.None? && IsTimeout(t)
    ensures Worker.Classify(PaymentError(HandleProviderError(HandleError(t), operation)))
            == Worker.Unrecoverable(Some(operation + " failed: Request timed out"))
  {
    var x := HandleProviderError(HandleError(t), operation);
    assert x.message == operation + " failed: Request timed out";
    assert Worker.Classify(PaymentError(x)).Unrecoverable?;
  }

  /** A refused or broken connection (502 or 503) is retried. */
  lemma UnreachableIsRetried(t: TransportError, operation: string)
    requires t.response.None? && !IsTimeout(t)
    ensures Worker.Classify(PaymentError(HandleProviderError(HandleError(t), operation))).Rethrown?
  {
  }

  /** An answer from the provider decides the retry by its own status: a 4xx ends
      the job, any other status is retried. */
  lemma AnsweredStatusDecides(t: TransportError, operation: string)
    requires t.response.Some?
    ensures Worker.Classify(PaymentError(HandleProviderError(HandleError(t), operation))).Unrecoverable?
            <==> 400 <= t.response.value.status < 500
  {
  }

  /** An error that is not an HttpException takes the default status 400 and so
      also ends the job. */
  lemma NonHttpErrorIsUnrecoverable(e: Thrown, operation: string)
    requires e.PlainError? || e.NonError?
    ensures Worker.Classify(PaymentError(HandleProviderError(e, operation))).Unrecoverable?
  {
  }

  /** `requestC2BPayment`; `transport` is the HTTP exchange, from the endpoint and
      body posted to what came back. */
  function RequestC2BPayment(m: Mapper, request: C2BPaymentRequest,
                             transport: (string, C2BRequestDto) -> Result<C2BResponseDto, TransportError>)
    : (r: Result<PaymentResponse, Thrown>)
    ensures var sent := transport(C2B_REQUEST_PAYMENT, MapC2BRequest(m, request));
      && (sent.Success? ==> r == Success(MapC2BResponse(sent.value)))
      && (sent.Failure? ==> r == Failure(PaymentError(HandleProviderError(HandleError(sent.error), C2B_OPERATION))))
  {
    Complete(C2B_OPERATION, transport(C2B_REQUEST_PAYMENT, MapC2BRequest(m, request)), MapC2BResponse)
  }

  /** `sendB2CPayment` */
  function SendB2CPayment(m: Mapper, request: B2CPaymentRequest,
                          transport: (string, B2CRequestDto) -> Result<TransferResponseDto, TransportError>)
    : (r: Result<PaymentResponse, Thrown>)
    ensures var sent := transport(B2C_SEND_MONEY, MapB2CRequest(m, request));
      && (sent.Success? ==> r == Success(MapTransferResponse(sent.value)))
      && (sent.Failure? ==> r == Failure(PaymentError(HandleProviderError(HandleError(sent.error), B2C_OPERATION))))
  {
    Complete(B2C_OPERATION, transport(B2C_SEND_MONEY, MapB2CRequest(m, request)), MapTransferResponse)
  }

  /** `transferB2B` */
  function TransferB2B(m: Mapper, request: B2BPaymentRequest,
                       transport: (string, B2BRequestDto) -> Result<TransferResponseDto, TransportError>)
    : (r: Result<PaymentResponse, Thrown>)
    ensures var sent := transport(B2B_TRANSFER, MapB2BRequest(m, request));
      && (sent.Success? ==> r == Success(MapTransferResponse(sent.value)))
      && (sent.Failure? ==> r == Failure(PaymentError(HandleProviderError(HandleError(sent.error), B2B_OPERATION))))
  {
    Complete(B2B_OPERATION, transport(B2B_TRANSFER, MapB2BRequest(m, request)), MapTransferResponse)
  }

  /** `getBalance` */
  function GetBalance(merchantCode: string,
                      transport: (string, BalanceRequestDto) -> Result<BalanceResponseDto, TransportError>)
    : (r: Result<BalanceResponse, Thrown>)
    ensures var sent := transport(BALANCE, MapBalanceRequest(merchantCode));
      && (sent.Success? ==> r == Success(MapBalanceResponse(sent.value)))
      && (sent.Failure? ==> r == Failure(PaymentError(HandleProviderError(HandleError(sent.error), BALANCE_OPERATION))))
  {
    Complete(BALANCE_OPERATION, transport(BALANCE, MapBalanceRequest(merchantCode)), MapBalanceResponse)
  }

  /** `getTransactionStatus` */
  function GetTransactionStatus(m: Mapper, request: TransactionStatusRequest,
                                transport: (string, TransactionStatusRequestDto) -> Result<TransactionStatusResponseDto, TransportError>)
    : (r: Result<TransactionStatusResponse, Thrown>)
    ensures var sent := transport(TRANSACTION_STATUS, MapTransactionStatusRequest(m, request));
      && (sent.Success? ==> r == Success(MapTransactionStatusResponse(sent.value)))
      && (sent.Failure? ==> r == Failure(PaymentError(HandleProviderError(HandleError(sent.error), STATUS_OPERATION))))
  {
    Complete(STATUS_OPERATION, transport(TRANSACTION_STATUS, MapTransactionStatusRequest(m, request)), MapTransactionStatusResponse)
  }

  /** Whatever the transport does, the C2B provider fails only with a
      BasePaymentException whose error code is unset, and a C2B worker stops
      retrying exactly when that exception's status is a 4xx. */
  lemma C2BFailuresArePaymentExceptions(m: Mapper, request: C2BPaymentRequest,
                                        transport: (string, C2BRequestDto) -> Result<C2BResponseDto, TransportError>)
    ensures var r := RequestC2BPayment(m, request, transport);
      r.Failure? ==>
        && r.error.PaymentError? && r.error.exception.cls == BasePayment && r.error.exception.errorCode.None?
        && (Worker.Classify(r.error).Unrecoverable? <==> 400 <= r.error.exception.statusCode < 500)
  {
  }
}
