/** WebhooksService: a provider callback is always acknowledged; when its merchant
    reference names a stored transaction, that one record takes the status the
    callback maps to, whatever its current status, and keeps the raw callback. */
module WebhooksService {
  import opened Wrappers
  import opened JsText
  import opened SasaPayDto
  import opened TransactionSchema
  import opened TransactionRepository
  import opened ResponseMapper

  /** `WebhookResponseDto` */
  datatype WebhookResponseDto = WebhookResponseDto(success: bool, message: string)

  const NO_REFERENCE := "Webhook received but no merchant reference provided"
  const NOT_FOUND := "Webhook received but transaction not found"
  const PROCESSED := "Webhook processed successfully"
  const PROCESSING_ERROR := "Webhook received with processing error"

  /** The reference a callback is matched by: `MerchantRequestID ?? MerchantReference`. */
  function CallbackReference(p: WebhookPayload): (r: Option<string>)
    ensures p.MerchantRequestID.Some? ==> r == p.MerchantRequestID
    ensures p.MerchantRequestID.None? ==> r == p.MerchantReference
  {
    Coalesce(p.MerchantRequestID, p.MerchantReference)
  }

  /** The update a matched callback applies: the mapped status, the raw payload,
      `completedAt` only for SUCCESS and FAILED, and the result description as
      the error message only for FAILED. */
  function WebhookUpdate(p: WebhookPayload, now: int): UpdateTransactionDto {
    var d := MapWebhookPayload(p);
    UpdateTransactionDto(
      status := Some(d.status),
      response := None,
      webhookData := Some(p),
      errorMessage := if d.status == FAILED then Some(d.resultDescription) else None,
      completedAt := if IsCompletion(d.status) then Some(now) else None)
  }

  /** What a matched callback does to its record. The new status is the mapped
      one whatever the old status was (there is no guard against leaving a final
      state); the payload is kept; `completedAt` is stamped exactly for SUCCESS and
      FAILED and `errorMessage` is written exactly for FAILED, or else they stay;
      the identity of the record does not change. */
  lemma WebhookUpdateEffect(t: Transaction, p: WebhookPayload, now: int)
    ensures var t' := ApplyUpdate(t, WebhookUpdate(p, now), now); var d := MapWebhookPayload(p);
      && t'.status == d.status
      && t'.webhookData == Some(p)
      && (IsCompletion(d.status) ==> t'.completedAt == Some(now))
      && (!IsCompletion(d.status) ==> t'.completedAt == t.completedAt)
      && (d.status == FAILED ==> t'.errorMessage == Some(d.resultDescription))
      && (d.status != FAILED ==> t'.errorMessage == t.errorMessage)
      && t'.transactionId == t.transactionId && t'.merchantReference == t.merchantReference
      && t'.response == t.response && t'.updatedAt == now
  {
  }

  /** A settled transaction is reopened by a later callback: a SUCCESS record that
      receives `Paid: false` becomes FAILED, and one that receives a pending status
      word becomes PROCESSING. */
  lemma NoTerminalStateGuard(t: Transaction, p: WebhookPayload, now: int)
    requires t.status == SUCCESS
    ensures p.Paid == Some(false) ==> ApplyUpdate(t, WebhookUpdate(p, now), now).status == FAILED
    ensures p.Paid.None? && p.TransactionStatus == Some("PENDING") ==>
      ApplyUpdate(t, WebhookUpdate(p, now), now).status == PROCESSING
  {
    if p.Paid.None? && p.TransactionStatus == Some("PENDING") {
      ToUpperCaseOfUpper("PENDING");
      assert InProgressWord(ToUpperCase("PENDING"));
    }
  }

  class WebhooksService {
    const repo: TransactionRepository

    constructor(repo: TransactionRepository)
      ensures this.repo == repo
    {
      this.repo := repo;
    }

    /** `processCallback`. A database error while the callback is handled is the
        outcome `storeFails`: it is caught, logged and acknowledged like every
        other path. */
    method ProcessCallback(payload: WebhookPayload, storeFails: bool, now: int) returns (r: WebhookResponseDto)
      requires repo.Valid()
      modifies repo
      ensures repo.Valid()
      ensures r.success
      ensures var ref := CallbackReference(payload);
        if !Truthy(ref) then r.message == NO_REFERENCE && repo.records == old(repo.records)
        else if storeFails then r.message == PROCESSING_ERROR && repo.records == old(repo.records)
        else match IndexOfMerchantReference(old(repo.records), ref.value)
          case None => r.message == NOT_FOUND && repo.records == old(repo.records)
          case Some(i) =>
            && r.message == PROCESSED
            && repo.records == old(repo.records)[i := ApplyUpdate(old(repo.records)[i], WebhookUpdate(payload, now), now)]
    {
      var merchantRef := CallbackReference(payload);
      var webhookData := MapWebhookPayload(payload);
      if !Truthy(merchantRef) {
        return WebhookResponseDto(true, NO_REFERENCE);
      }
      if storeFails {
        return WebhookResponseDto(true, PROCESSING_ERROR);
      }
      var transaction := repo.FindByMerchantRef(merchantRef.value);
      if transaction.None? {
        return WebhookResponseDto(true, NOT_FOUND);
      }
      UniqueIdsLocate(repo.records, merchantRef.value);
      var _ := repo.UpdateByTransactionId(transaction.value.transactionId, WebhookUpdate(payload, now), now);
      r := WebhookResponseDto(true, PROCESSED);
    }
  }

  /** In a well-formed collection the record found by merchant reference is the
      one its transaction id designates. */
  lemma UniqueIdsLocate(records: seq<Transaction>, ref: string)
    requires WellFormed(records) && IndexOfMerchantReference(records, ref).Some?
    ensures var i := IndexOfMerchantReference(records, ref).value;
      IndexOfTransactionId(records, records[i].transactionId) == Some(i)
  {
  }
}
