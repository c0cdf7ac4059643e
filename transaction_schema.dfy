/** The stored payment transaction: its type and status enumerations, the document
    fields with their defaults and required-field rules, and the uniqueness of
    `transactionId` and `merchantReference` across the collection. Times are
    integers counting milliseconds. */
module TransactionSchema {
  import opened Wrappers
  import opened Exceptions
  import opened SasaPayDto
  import opened PaymentDto

  datatype TransactionType = C2B | B2C | B2B

  datatype TransactionStatus = PENDING | PROCESSING | SUCCESS | FAILED | CANCELLED

  /** The string each `TransactionType` member stands for. */
  function TypeValue(t: TransactionType): string {
    match t
    case C2B => "C2B"
    case B2C => "B2C"
    case B2B => "B2B"
  }

  /** The string each `TransactionStatus` member stands for. */
  function StatusValue(s: TransactionStatus): string {
    match s
    case PENDING => "PENDING"
    case PROCESSING => "PROCESSING"
    case SUCCESS => "SUCCESS"
    case FAILED => "FAILED"
    case CANCELLED => "CANCELLED"
  }

  /** The `enum` validator of the `status` path: only the five values pass. */
  function ParseStatus(v: string): (r: Option<TransactionStatus>)
    ensures r.Some? ==> StatusValue(r.value) == v
  {
    if v == "PENDING" then Some(PENDING)
    else if v == "PROCESSING" then Some(PROCESSING)
    else if v == "SUCCESS" then Some(SUCCESS)
    else if v == "FAILED" then Some(FAILED)
    else if v == "CANCELLED" then Some(CANCELLED)
    else None
  }

  /** The `enum` validator of the `type` path. */
  function ParseType(v: string): (r: Option<TransactionType>)
    ensures r.Some? ==> TypeValue(r.value) == v
  {
    if v == "C2B" then Some(C2B) else if v == "B2C" then Some(B2C) else if v == "B2B" then Some(B2B) else None
  }

  /** Every member passes its validator and reads back as itself. */
  lemma EnumRoundTrip(s: TransactionStatus, t: TransactionType)
    ensures ParseStatus(StatusValue(s)) == Some(s)
    ensures ParseType(TypeValue(t)) == Some(t)
  {
  }

  /** The statuses that stamp `completedAt`. */
  predicate IsCompletion(s: TransactionStatus) {
    s == SUCCESS || s == FAILED
  }

  /** The initiation request a record keeps in its `request` path. */
  datatype StoredRequest =
    | C2BRequest(c2b: C2BPaymentDto)
    | B2CRequest(b2c: B2CPaymentDto)
    | B2BRequest(b2b: B2BPaymentDto)

  /** The acknowledgment a worker keeps in the `response` path. */
  datatype StoredResponse =
    | C2BAck(merchantRequestId: Option<string>, checkoutRequestId: Option<string>,
             message: string, customerMessage: Option<string>)
    | B2CAck(merchantRequestId: Option<string>, message: string)

  datatype Transaction = Transaction(
    transactionId: string,
    merchantReference: string,
    transactionType: TransactionType,
    amount: int,
    currency: string,
    phoneNumber: Option<string>,
    accountNumber: Option<string>,
    accountName: Option<string>,
    description: Option<string>,
    status: TransactionStatus,
    request: Option<StoredRequest>,
    response: Option<StoredResponse>,
    webhookData: Option<WebhookPayload>,
    errorMessage: Option<string>,
    completedAt: Option<int>,
    metadata: Option<Details>,
    createdAt: int,
    updatedAt: int)

  /** The default of the `currency` path. */
  const DEFAULT_CURRENCY := "KES"

  /** The `required` validator: a required string path must be present and not
      empty (the type, status and amount paths are always present here). */
  predicate RequiredFieldsPresent(t: Transaction) {
    t.transactionId != "" && t.merchantReference != "" && t.currency != ""
  }

  /** No two records share a transaction id. */
  predicate UniqueTransactionIds(records: seq<Transaction>) {
    forall i, j :: 0 <= i < j < |records| ==> records[i].transactionId != records[j].transactionId
  }

  /** No two records share a merchant reference. */
  predicate UniqueMerchantReferences(records: seq<Transaction>) {
    forall i, j :: 0 <= i < j < |records| ==> records[i].merchantReference != records[j].merchantReference
  }
}
