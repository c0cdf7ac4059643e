/** B2CProcessor: the worker for the B2C queue, the C2B algorithm around a
    disbursement. It stores only the merchant request id and the message of the
    acknowledgment. */
module B2CProcessor {
  import opened Wrappers
  import opened Exceptions
  import opened TransactionSchema
  import opened TransactionRepository
  import opened PaymentQueue
  import opened Worker
  import RequestMapper
  import ResponseMapper

  /** The job's fields as the provider receives them. */
  function ProviderRequest(job: B2CJobData): (req: RequestMapper.B2CPaymentRequest)
    ensures req.phoneNumber == job.phoneNumber && req.amount == job.amount
    ensures req.merchantReference == job.merchantReference && req.reason == job.reason
    ensures req.callbackUrl == job.callbackUrl && req.channel == job.channel
    ensures req.currency == Some(job.currency)
  {
    RequestMapper.B2CPaymentRequest(job.phoneNumber, job.amount, job.merchantReference, job.reason,
                                    Some(job.currency), job.channel, job.callbackUrl)
  }

  /** What the B2C worker keeps of an acknowledgment: the merchant request id
      and the message. */
  function AckOf(response: ResponseMapper.PaymentResponse): (a: Ack)
    ensures a.success == response.success && a.message == response.message
    ensures a.stored == B2CAck(response.merchantRequestId, response.message)
  {
    Ack(response.success, response.message, B2CAck(response.merchantRequestId, response.message))
  }

  class B2CProcessor {
    const repo: TransactionRepository

    constructor(repo: TransactionRepository)
      ensures this.repo == repo
    {
      this.repo := repo;
    }

    /** `process`: one attempt of a job. The provider is the function from the
        request it receives to its answer. */
    method Process(job: B2CJobData, provider: RequestMapper.B2CPaymentRequest -> Result<ResponseMapper.PaymentResponse, Thrown>,
                   now: int) returns (outcome: JobOutcome)
      requires repo.Valid()
      modifies repo
      ensures repo.Valid()
      ensures AttemptResult(repo.records, outcome)
              == Attempt(old(repo.records), job.transactionId, AckResult(provider(ProviderRequest(job)), AckOf), "B2C", now)
    {
      var id := job.transactionId;
      ghost var records0 := repo.records;
      var first := repo.UpdateStatus(id, PROCESSING, None, now);
      if first.Failure? {
        var again := repo.UpdateStatus(id, FAILED, ErrorMessage(PaymentError(first.error)), now);
        return Rethrown(PaymentError(again.error));
      }
      ghost var processing := repo.records;
      IdentitiesKeepIndex(records0, processing, id);
      var response := provider(ProviderRequest(job));
      var error: Thrown;
      if response.Failure? {
        error := response.error;
      } else {
        var ack := AckOf(response.value);
        var _ := repo.UpdateByTransactionId(id, AckUpdate(ack), now);
        WriteKeepsIdentities(processing, id, AckUpdate(ack), now);
        if ack.success {
          return Completed;
        }
        error := PlainError(Rejection("B2C", ack.message));
      }
      var _ := repo.UpdateStatus(id, FAILED, ErrorMessage(error), now);
      outcome := Classify(error);
    }
  }
}
