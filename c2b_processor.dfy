/** C2BProcessor: the worker for the C2B queue. One attempt marks the transaction
    PROCESSING, asks the provider to collect the payment, records the
    acknowledgment and, on a rejection or an error, marks the transaction FAILED
    and decides whether the queue may retry. */
module C2BProcessor {
  import opened Wrappers
  import opened Exceptions
  import opened TransactionSchema
  import opened TransactionRepository
  import opened PaymentQueue
  import opened Worker
  import RequestMapper
  import ResponseMapper

  /** The job's fields as the provider receives them. */
  function ProviderRequest(job: C2BJobData): (req: RequestMapper.C2BPaymentRequest)
    ensures req.phoneNumber == job.phoneNumber && req.amount == job.amount
    ensures req.accountReference == job.accountReference && req.description == job.description
    ensures req.callbackUrl == job.callbackUrl && req.networkCode == job.networkCode
    ensures req.currency == Some(job.currency)
  {
    RequestMapper.C2BPaymentRequest(job.phoneNumber, job.amount, job.accountReference, job.description,
                                    Some(job.currency), job.networkCode, job.callbackUrl)
  }

  /** What the C2B worker keeps of an acknowledgment: both request ids, the
      message and the customer message. */
  function AckOf(response: ResponseMapper.PaymentResponse): (a: Ack)
    ensures a.success == response.success && a.message == response.message
    ensures a.stored == C2BAck(response.merchantRequestId, response.checkoutRequestId,
                               response.message, response.customerMessage)
  {
    Ack(response.success, response.message,
        C2BAck(response.merchantRequestId, response.checkoutRequestId, response.message, response.customerMessage))
  }

  /** Every attempt recorded so far is Worker.Attempt with its own provider
      answer on the collection the attempt before it left. */
  ghost predicate Traced(job: C2BJobData, providers: seq<RequestMapper.C2BPaymentRequest -> Result<ResponseMapper.PaymentResponse, Thrown>>,
                         trace: seq<seq<Transaction>>, outcomes: seq<JobOutcome>, now: int) {
    && |trace| == |outcomes| + 1 && |outcomes| <= |providers|
    && forall k :: 0 <= k < |outcomes| ==>
         AttemptResult(trace[k + 1], outcomes[k])
         == Attempt(trace[k], job.transactionId, AckResult(providers[k](ProviderRequest(job)), AckOf), "C2B", now)
  }

  /** One more attempt on the last collection of a trace extends it. */
  lemma TracedExtend(job: C2BJobData, providers: seq<RequestMapper.C2BPaymentRequest -> Result<ResponseMapper.PaymentResponse, Thrown>>,
                     trace: seq<seq<Transaction>>, outcomes: seq<JobOutcome>, records: seq<Transaction>, o: JobOutcome, now: int)
    requires Traced(job, providers, trace, outcomes, now) && |outcomes| < |providers|
    requires AttemptResult(records, o)
             == Attempt(trace[|outcomes|], job.transactionId, AckResult(providers[|outcomes|](ProviderRequest(job)), AckOf), "C2B", now)
    ensures Traced(job, providers, trace + [records], outcomes + [o], now)
  {
    var trace', outcomes' := trace + [records], outcomes + [o];
    forall k | 0 <= k < |outcomes'|
      ensures AttemptResult(trace'[k + 1], outcomes'[k])
              == Attempt(trace'[k], job.transactionId, AckResult(providers[k](ProviderRequest(job)), AckOf), "C2B", now)
    {
      if k < |outcomes| {
        assert trace'[k + 1] == trace[k + 1] && trace'[k] == trace[k] && outcomes'[k] == outcomes[k];
      }
    }
  }

  class C2BProcessor {
    const repo: TransactionRepository

    constructor(repo: TransactionRepository)
      ensures this.repo == repo
    {
      this.repo := repo;
    }

    /** `process`: one attempt of a job. The provider is the function from the
        request it receives to its answer. */
    method Process(job: C2BJobData, provider: RequestMapper.C2BPaymentRequest -> Result<ResponseMapper.PaymentResponse, Thrown>,
                   now: int) returns (outcome: JobOutcome)
      requires repo.Valid()
      modifies repo
      ensures repo.Valid()
      ensures AttemptResult(repo.records, outcome)
              == Attempt(old(repo.records), job.transactionId, AckResult(provider(ProviderRequest(job)), AckOf), "C2B", now)
    {
      var id := job.transactionId;
      ghost var records0 := repo.records;
      var first := repo.UpdateStatus(id, PROCESSING, None, now);
      if first.Failure? {
        var again := repo.UpdateStatus(id, FAILED, ErrorMessage(PaymentError(first.error)), now);
        return Rethrown(PaymentError(again.error));
      }
      ghost var processing := repo.records;
      IdentitiesKeepIndex(records0, processing, id);
      var response := provider(ProviderRequest(job));
      var error: Thrown;
      if response.Failure? {
        error := response.error;
      } else {
        var ack := AckOf(response.value);
        var _ := repo.UpdateByTransactionId(id, AckUpdate(ack), now);
        WriteKeepsIdentities(processing, id, AckUpdate(ack), now);
        if ack.success {
          return Completed;
        }
        error := PlainError(Rejection("C2B", ack.message));
      }
      var _ := repo.UpdateStatus(id, FAILED, ErrorMessage(error), now);
      outcome := Classify(error);
    }

    /** The queue's retry loop around `process`, for `attempts` attempts at most
        (the provider may answer differently on each): it stops at the first
        attempt that completes or fails unrecoverably. `trace` holds the
        collection before each attempt and after the last: attempt k is
        Worker.Attempt with the k-th provider answer on the collection the
        attempt before it left. */
    method RunJob(job: C2BJobData, providers: seq<RequestMapper.C2BPaymentRequest -> Result<ResponseMapper.PaymentResponse, Thrown>>,
                  attempts: nat, now: int) returns (outcomes: seq<JobOutcome>, ghost trace: seq<seq<Transaction>>)
      requires repo.Valid() && 1 <= attempts <= |providers|
      modifies repo
      ensures repo.Valid()
      ensures 1 <= |outcomes| <= attempts
      ensures forall k :: 0 <= k < |outcomes| - 1 ==> outcomes[k].Rethrown?
      ensures !outcomes[|outcomes| - 1].Rethrown? || |outcomes| == attempts
      ensures |trace| == |outcomes| + 1 && trace[0] == old(repo.records) && repo.records == trace[|outcomes|]
      ensures forall k :: 0 <= k < |outcomes| ==>
        AttemptResult(trace[k + 1], outcomes[k])
        == Attempt(trace[k], job.transactionId, AckResult(providers[k](ProviderRequest(job)), AckOf), "C2B", now)
    {
      trace := [repo.records];
      var o := Process(job, providers[0], now);
      outcomes := [o];
      trace := trace + [repo.records];
      while o.Rethrown? && |outcomes| < attempts
        invariant repo.Valid()
        invariant 1 <= |outcomes| <= attempts && outcomes[|outcomes| - 1] == o
        invariant forall k :: 0 <= k < |outcomes| - 1 ==> outcomes[k].Rethrown?
        invariant |trace| == |outcomes| + 1 && trace[0] == old(repo.records) && repo.records == trace[|outcomes|]
        invariant Traced(job, providers, trace, outcomes, now)
        decreases attempts - |outcomes|
      {
        var previous := outcomes;
        ghost var before := trace;
        o := Process(job, providers[|outcomes|], now);
        outcomes := previous + [o];
        trace := before + [repo.records];
        TracedExtend(job, providers, before, previous, repo.records, o, now);
      }
    }
  }
}
