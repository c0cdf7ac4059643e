/** ResponseMapper: turns SasaPay responses and callbacks into the service's own
    records, and maps SasaPay result codes and callback status words to a
    `TransactionStatus`. */
module ResponseMapper {
  import opened Wrappers
  import opened JsText
  import opened SasaPayDto
  import opened TransactionSchema

  /** `SASAPAY_RESULT_CODES`: the known result codes and their descriptions. */
  const RESULT_CODES: map<string, string> := map[
    "0" := "Success",
    "SP00000" := "Success",
    "1032" := "Request cancelled by user",
    "SP01001" := "Request cancelled by user",
    "1037" := "STK timeout",
    "SP01002" := "No callback from MNO - STK or network issue",
    "2001" := "Wrong PIN",
    "SP01003" := "Wrong PIN",
    "1" := "Insufficient balance",
    "SP01004" := "Insufficient balance",
    "SP01005" := "Transaction already processed",
    "AC01" := "Bank account not found"]

  datatype PaymentResponse = PaymentResponse(
    success: bool,
    merchantRequestId: Option<string>,
    checkoutRequestId: Option<string>,
    message: string,
    customerMessage: Option<string>)

  datatype BalanceResponse = BalanceResponse(
    success: bool,
    balance: Option<int>,
    currency: string,
    message: string)

  datatype TransactionStatusResponse = TransactionStatusResponse(
    success: bool,
    status: TransactionStatus,
    resultCode: string,
    resultDescription: string,
    transactionType: string,
    transactionDate: string,
    checkoutId: string,
    checkoutRequestId: string,
    merchantReference: string,
    requestedAmount: string,
    paid: Option<bool>,
    isReversed: Option<bool>,
    paidAmount: string,
    paidDate: string,
    sourceChannel: string,
    destinationChannel: string,
    transId: string,
    transactionCode: string,
    thirdPartyTransactionCode: string,
    reversalTransactionCode: string)

  /** A callback in the service's terms. `amount` is the text of the amount field
      that was chosen; the source parses it as a float. */
  datatype WebhookData = WebhookData(
    merchantCode: Option<string>,
    merchantRequestId: string,
    checkoutRequestId: Option<string>,
    resultCode: string,
    resultDescription: string,
    amount: Option<string>,
    transactionDate: Option<string>,
    phoneNumber: Option<string>,
    receiptNumber: Option<string>,
    status: TransactionStatus)

  // ---------------------------------------------------------------- result codes

  /** `mapResultCodeToStatus`. A missing or empty code is PENDING; the switch
      table comes next; any other code is SUCCESS when it starts with `0` and
      FAILED otherwise. */
  function MapResultCodeToStatus(resultCode: Option<string>): (r: TransactionStatus)
    ensures !Truthy(resultCode) <==> r == PENDING
    ensures r != PROCESSING
    ensures Truthy(resultCode) ==>
      var c := resultCode.value;
      && (r == SUCCESS <==> StartsWith(c, "0") || c == "SP00000")
      && (r == CANCELLED <==> c == "1032" || c == "SP01001")
      && (r == FAILED <==> !StartsWith(c, "0") && c !in {"SP00000", "1032", "SP01001"})
  {
    if !Truthy(resultCode) then PENDING
    else
      var c := resultCode.value;
      assert StartsWith(c, "0") <==> c[0] == '0';
      if c == "0" || c == "SP00000" then SUCCESS
      else if c == "1032" || c == "SP01001" then CANCELLED
      else if c == "1037" || c == "SP01002" then FAILED
      else if c == "2001" || c == "SP01003" then FAILED
      else if c == "1" || c == "SP01004" then FAILED
      else if c == "SP01005" then FAILED
      else if c == "AC01" then FAILED
      else if StartsWith(c, "0") || c == "SP00000" then SUCCESS
      else FAILED
  }

  /** The cases listed in the switch give the statuses it names. */
  lemma TabledResultCodes()
    ensures MapResultCodeToStatus(Some("0")) == SUCCESS && MapResultCodeToStatus(Some("SP00000")) == SUCCESS
    ensures MapResultCodeToStatus(Some("1032")) == CANCELLED && MapResultCodeToStatus(Some("SP01001")) == CANCELLED
    ensures forall c :: c in {"1037", "SP01002", "2001", "SP01003", "1", "SP01004", "SP01005", "AC01"}
                     ==> MapResultCodeToStatus(Some(c)) == FAILED
  {
  }

  /** `getResultDescription`: the table entry for a known code, else
      'Unknown error'. */
  function ResultDescription(resultCode: string): (r: string)
    ensures resultCode in RESULT_CODES ==> r == RESULT_CODES[resultCode]
    ensures resultCode !in RESULT_CODES ==> r == "Unknown error"
  {
    if resultCode in RESULT_CODES && RESULT_CODES[resultCode] != "" then RESULT_CODES[resultCode]
    else "Unknown error"
  }

  /** The two tables agree: a code is described as 'Success' exactly when it maps
      to SUCCESS, and as a cancellation exactly when it maps to CANCELLED; every
      other known code maps to FAILED. */
  lemma DescriptionsAgreeWithStatuses(c: string)
    requires c in RESULT_CODES
    ensures ResultDescription(c) == "Success" <==> MapResultCodeToStatus(Some(c)) == SUCCESS
    ensures ResultDescription(c) == "Request cancelled by user" <==> MapResultCodeToStatus(Some(c)) == CANCELLED
    ensures ResultDescription(c) !in {"Success", "Request cancelled by user"}
            <==> MapResultCodeToStatus(Some(c)) == FAILED
  {
  }

  // ---------------------------------------------------------------- callback status

  /** The words of the status switch, in upper case. */
  predicate SuccessWord(w: string) { w == "SUCCESS" || w == "COMPLETED" }
  predicate FailureWord(w: string) { w == "FAILED" || w == "FAILURE" }
  predicate CancelWord(w: string) { w == "CANCELLED" || w == "CANCELED" }
  predicate InProgressWord(w: string) { w == "PENDING" || w == "PROCESSING" }
  predicate StatusWord(w: string) { SuccessWord(w) || FailureWord(w) || CancelWord(w) || InProgressWord(w) }

  /** `mapWebhookStatusToTransactionStatus`: `Paid` decides first; then the status
      text, compared in upper case; then the result code. */
  function MapWebhookStatus(status: Option<string>, resultCode: Option<string>, paid: Option<bool>): (r: TransactionStatus)
    ensures paid == Some(true) ==> r == SUCCESS
    ensures paid == Some(false) ==> r == FAILED
    ensures paid.None? && status.Some? ==>
      var w := ToUpperCase(status.value);
      && (SuccessWord(w) ==> r == SUCCESS)
      && (FailureWord(w) ==> r == FAILED)
      && (CancelWord(w) ==> r == CANCELLED)
      && (InProgressWord(w) ==> r == PROCESSING)
    ensures paid.None? && (status.None? || !StatusWord(ToUpperCase(status.value))) ==>
      r == MapResultCodeToStatus(resultCode)
    ensures r == PROCESSING <==> paid.None? && status.Some? && InProgressWord(ToUpperCase(status.value))
  {
    if paid.Some? then (if paid.value then SUCCESS else FAILED)
    else if status.None? then MapResultCodeToStatus(resultCode)
    else
      var w := ToUpperCase(status.value);
      if SuccessWord(w) then SUCCESS
      else if FailureWord(w) then FAILED
      else if CancelWord(w) then CANCELLED
      else if InProgressWord(w) then PROCESSING
      else MapResultCodeToStatus(resultCode)
  }

  /** The status text is compared case-insensitively: any spelling of a word
      maps as its upper-case form does, so two spellings that agree in upper case
      map alike. */
  lemma StatusCaseInsensitive(w: string, v: string, resultCode: Option<string>)
    ensures MapWebhookStatus(Some(w), resultCode, None) == MapWebhookStatus(Some(ToUpperCase(w)), resultCode, None)
    ensures ToUpperCase(w) == ToUpperCase(v) ==>
      MapWebhookStatus(Some(w), resultCode, None) == MapWebhookStatus(Some(v), resultCode, None)
  {
    ToUpperCaseIdempotent(w);
  }

  /** A status word written in lower case maps as the upper-case word does; the
      eight words of the switch are recognised in lower case. */
  lemma LowerCaseStatusWords(w: string, resultCode: Option<string>)
    requires forall i :: 0 <= i < |w| ==> !IsAsciiLower(w[i]) && w[i] < '\U{0080}'
    ensures MapWebhookStatus(Some(LowerAscii(w)), resultCode, None) == MapWebhookStatus(Some(w), resultCode, None)
  {
    ToUpperCaseOfLower(w);
    StatusCaseInsensitive(LowerAscii(w), w, resultCode);
  }

  // ---------------------------------------------------------------- responses

  /** The `message` of an acknowledgment: ResponseDescription, else detail, else
      'Unknown' (each skipped when empty). */
  function AckMessage(responseDescription: Option<string>, detail: Option<string>): (m: string)
    ensures Truthy(responseDescription) ==> m == responseDescription.value
    ensures !Truthy(responseDescription) && Truthy(detail) ==> m == detail.value
    ensures !Truthy(responseDescription) && !Truthy(detail) ==> m == "Unknown"
    ensures m != ""
  {
    Or(responseDescription, Or(detail, "Unknown"))
  }

  /** `mapC2BResponse` */
  function MapC2BResponse(response: C2BResponseDto): (r: PaymentResponse)
    ensures r.success <==> response.status == Some(true)
    ensures r.merchantRequestId == response.MerchantRequestID && r.checkoutRequestId == response.CheckoutRequestID
    ensures r.message == AckMessage(response.ResponseDescription, response.detail)
    ensures r.customerMessage == response.CustomerMessage
  {
    PaymentResponse(response.status == Some(true), response.MerchantRequestID, response.CheckoutRequestID,
                    Or(response.ResponseDescription, Or(response.detail, "Unknown")), response.CustomerMessage)
  }

  /** `mapB2CResponse`; `mapB2BResponse` is the same function on the B2B
      acknowledgment. Neither carries a checkout id or a customer message. */
  function MapTransferResponse(response: TransferResponseDto): (r: PaymentResponse)
    ensures r.success <==> response.status == Some(true)
    ensures r.merchantRequestId == response.MerchantRequestID
    ensures r.checkoutRequestId.None? && r.customerMessage.None?
    ensures r.message == AckMessage(response.ResponseDescription, response.detail)
  {
    PaymentResponse(response.status == Some(true), response.MerchantRequestID, None,
                    Or(response.ResponseDescription, Or(response.detail, "Unknown")), None)
  }

  /** `mapBalanceResponse` */
  function MapBalanceResponse(response: BalanceResponseDto): (r: BalanceResponse)
    ensures r.success <==> response.status == Some(true)
    ensures r.balance == response.Balance
    ensures r.currency == if Truthy(response.Currency) then response.Currency.value else "KES"
    ensures r.message == if Truthy(response.detail) then response.detail.value else "Success"
  {
    BalanceResponse(response.status == Some(true), response.Balance, Or(response.Currency, "KES"),
                    Or(response.detail, "Success"))
  }

  /** `mapTransactionStatusResponse`: `success` iff `Paid === true`; the status is
      the result-code mapping; every other field is copied. */
  function MapTransactionStatusResponse(response: TransactionStatusResponseDto): (r: TransactionStatusResponse)
    ensures r.success <==> response.Paid == Some(true)
    ensures r.status == MapResultCodeToStatus(Some(response.ResultCode)) && r.status != PROCESSING
    ensures r.resultCode == response.ResultCode && r.resultDescription == response.ResultDescription
    ensures r.paid == response.Paid && r.checkoutRequestId == response.CheckoutRequestID
    ensures r.merchantReference == response.MerchantReference && r.transId == response.TransID
  {
    TransactionStatusResponse(
      success := response.Paid == Some(true),
      status := MapResultCodeToStatus(Some(response.ResultCode)),
      resultCode := response.ResultCode,
      resultDescription := response.ResultDescription,
      transactionType := response.TransactionType,
      transactionDate := response.TransactionDate,
      checkoutId := response.CheckoutId,
      checkoutRequestId := response.CheckoutRequestID,
      merchantReference := response.MerchantReference,
      requestedAmount := response.RequestedAmount,
      paid := response.Paid,
      isReversed := response.IsReversed,
      paidAmount := response.PaidAmount,
      paidDate := response.PaidDate,
      sourceChannel := response.SourceChannel,
      destinationChannel := response.DestinationChannel,
      transId := response.TransID,
      transactionCode := response.TransactionCode,
      thirdPartyTransactionCode := response.ThirdPartyTransactionCode,
      reversalTransactionCode := response.ReversalTransactionCode)
  }

  /** The amount field a callback's amount is read from: the first of Amount,
      TransAmount and PaidAmount that is not empty. */
  function AmountText(p: WebhookPayload): (r: Option<string>)
    ensures r.Some? ==> r.value != "" && (r == p.Amount || r == p.TransAmount || r == p.PaidAmount)
    ensures r.None? <==> !Truthy(p.Amount) && !Truthy(p.TransAmount) && !Truthy(p.PaidAmount)
    ensures Truthy(p.Amount) ==> r == p.Amount
  {
    if Truthy(p.Amount) then p.Amount
    else if Truthy(p.TransAmount) then p.TransAmount
    else if Truthy(p.PaidAmount) then p.PaidAmount
    else None
  }

  /** `mapWebhookPayload`. Each `??` takes the first field that is present, even
      when it is empty. */
  function MapWebhookPayload(p: WebhookPayload): (d: WebhookData)
    ensures p.MerchantRequestID.Some? ==> d.merchantRequestId == p.MerchantRequestID.value
    ensures p.MerchantRequestID.None? && p.MerchantReference.Some? ==> d.merchantRequestId == p.MerchantReference.value
    ensures p.MerchantRequestID.None? && p.MerchantReference.None? ==> d.merchantRequestId == ""
    ensures d.checkoutRequestId == if p.CheckoutRequestID.Some? then p.CheckoutRequestID else p.CheckoutId
    ensures d.resultCode == if p.ResultCode.Some? then p.ResultCode.value else ""
    ensures p.ResultDesc.Some? ==> d.resultDescription == p.ResultDesc.value
    ensures p.ResultDesc.None? && p.ResultDescription.Some? ==> d.resultDescription == p.ResultDescription.value
    ensures p.ResultDesc.None? && p.ResultDescription.None? ==> d.resultDescription == ""
    ensures d.phoneNumber == if p.PhoneNumber.Some? then p.PhoneNumber else p.CustomerMobile
    ensures p.ReceiptNumber.Some? ==> d.receiptNumber == p.ReceiptNumber
    ensures p.ReceiptNumber.None? && p.TransactionCode.Some? ==> d.receiptNumber == p.TransactionCode
    ensures p.ReceiptNumber.None? && p.TransactionCode.None? ==> d.receiptNumber == p.TransID
    ensures d.amount == AmountText(p)
    ensures d.merchantCode == p.MerchantCode && d.transactionDate == p.TransactionDate
    ensures d.status == MapWebhookStatus(p.TransactionStatus, Some(d.resultCode), p.Paid)
  {
    var resultCode := Coalesce(p.ResultCode, Some("")).value;
    WebhookData(
      merchantCode := p.MerchantCode,
      merchantRequestId := Coalesce(p.MerchantRequestID, Coalesce(p.MerchantReference, Some(""))).value,
      checkoutRequestId := Coalesce(p.CheckoutRequestID, p.CheckoutId),
      resultCode := resultCode,
      resultDescription := Coalesce(p.ResultDesc, Coalesce(p.ResultDescription, Some(""))).value,
      amount := AmountText(p),
      transactionDate := p.TransactionDate,
      phoneNumber := Coalesce(p.PhoneNumber, p.CustomerMobile),
      receiptNumber := Coalesce(p.ReceiptNumber, Coalesce(p.TransactionCode, p.TransID)),
      status := MapWebhookStatus(p.TransactionStatus, Some(resultCode), p.Paid))
  }

  /** A callback with neither `Paid`, a status word nor a result code is PENDING,
      since a missing result code is read as the empty one. */
  lemma BareCallbackIsPending(p: WebhookPayload)
    requires p.Paid.None? && p.TransactionStatus.None? && p.ResultCode.None?
    ensures MapWebhookPayload(p).status == PENDING
  {
  }
}
