/** The records exchanged with the SasaPay API: the request bodies the service
    sends, the responses it receives, and the callback payloads SasaPay posts back.
    A response field typed `boolean` is an `Option<bool>` here because the code
    tests it with `=== true`, which also rejects an absent value. */
module SasaPayDto {
  import opened Wrappers

  /** Mobile network codes; the channel code for M-PESA and Airtel is the same. */
  const NETWORK_MPESA := "63902"
  const NETWORK_AIRTEL := "63903"
  const NETWORK_TKASH := "63907"
  const CHANNEL_MPESA := "63902"
  const CHANNEL_AIRTEL := "63903"
  const CHANNEL_BANK := "BANK"

  datatype C2BRequestDto = C2BRequestDto(
    MerchantCode: string,
    NetworkCode: string,
    PhoneNumber: string,
    TransactionDesc: string,
    AccountReference: string,
    Currency: string,
    Amount: string,
    CallBackURL: string)

  datatype B2CRequestDto = B2CRequestDto(
    MerchantCode: string,
    MerchantTransactionReference: string,
    Currency: string,
    Amount: string,
    ReceiverNumber: string,
    Channel: string,
    CallBackURL: string,
    Reason: string)

  datatype B2BRequestDto = B2BRequestDto(
    MerchantCode: string,
    MerchantTransactionReference: string,
    Currency: string,
    Amount: string,
    ReceiverMerchantCode: string,
    AccountReference: Option<string>,
    ReceiverAccountType: string,
    NetworkCode: string,
    CallBackURL: string,
    Reason: string)

  datatype BalanceRequestDto = BalanceRequestDto(MerchantCode: string)

  datatype TransactionStatusRequestDto = TransactionStatusRequestDto(
    MerchantCode: string,
    CheckoutRequestID: Option<string>,
    MerchantTransactionReference: Option<string>,
    CallbackUrl: string)

  datatype C2BResponseDto = C2BResponseDto(
    status: Option<bool>,
    detail: Option<string>,
    message: Option<string>,
    MerchantRequestID: Option<string>,
    CheckoutRequestID: Option<string>,
    ResponseDescription: Option<string>,
    CustomerMessage: Option<string>)

  /** The B2C and the B2B acknowledgments have the same fields. */
  datatype TransferResponseDto = TransferResponseDto(
    status: Option<bool>,
    detail: Option<string>,
    message: Option<string>,
    MerchantRequestID: Option<string>,
    ResponseDescription: Option<string>)

  /** `Balance` is a JSON number, kept here as an integer count of minor units. */
  datatype BalanceResponseDto = BalanceResponseDto(
    status: Option<bool>,
    detail: Option<string>,
    message: Option<string>,
    Balance: Option<int>,
    Currency: Option<string>)

  datatype TransactionStatusResponseDto = TransactionStatusResponseDto(
    ResultCode: string,
    ResultDescription: string,
    TransactionType: string,
    TransactionDate: string,
    CheckoutId: string,
    CheckoutRequestID: string,
    MerchantReference: string,
    RequestedAmount: string,
    Paid: Option<bool>,
    IsReversed: Option<bool>,
    PaidAmount: string,
    PaidDate: string,
    SourceChannel: string,
    DestinationChannel: string,
    TransID: string,
    TransactionCode: string,
    ThirdPartyTransactionCode: string,
    ReversalTransactionCode: string)

  /** A `timestamp` value in a callback body: a number of milliseconds, or a date
      string to be parsed. */
  datatype RawTimestamp = Millis(ms: int) | DateText(text: string)

  /** A callback body. Every field the service reads has its own slot (both
      spellings of the fields the provider names in two ways); the remaining
      string fields are kept in `others`, so the body can be stored as it came. */
  datatype WebhookPayload = WebhookPayload(
    MerchantCode: Option<string>,
    MerchantRequestID: Option<string>,
    MerchantReference: Option<string>,
    CheckoutRequestID: Option<string>,
    CheckoutId: Option<string>,
    ResultCode: Option<string>,
    ResultDesc: Option<string>,
    ResultDescription: Option<string>,
    Amount: Option<string>,
    TransAmount: Option<string>,
    PaidAmount: Option<string>,
    TransactionDate: Option<string>,
    PhoneNumber: Option<string>,
    CustomerMobile: Option<string>,
    ReceiptNumber: Option<string>,
    TransactionCode: Option<string>,
    TransID: Option<string>,
    TransactionStatus: Option<string>,
    Paid: Option<bool>,
    timestamp: Option<RawTimestamp>,
    Timestamp: Option<RawTimestamp>,
    others: map<string, string>)
}
