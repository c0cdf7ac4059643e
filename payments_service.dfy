/** PaymentsService: initiating a payment checks the merchant reference for a
    duplicate, inserts a PENDING transaction under a freshly generated id and
    enqueues a job keyed by that id on the queue for the payment's type. */
module PaymentsService {
  import opened Wrappers
  import opened JsText
  import opened Exceptions
  import opened PaymentDto
  import opened TransactionSchema
  import opened TransactionRepository
  import opened PaymentQueue
  import ResponseMapper

  /** `PaymentResponseDto`, the reply to an initiation. */
  datatype PaymentResponseDto = PaymentResponseDto(
    transactionId: string,
    merchantReference: string,
    status: TransactionStatus,
    message: string)

  /** `BalanceResponseDto`, the reply to a balance query. */
  datatype BalanceResponseDto = BalanceResponseDto(
    success: bool,
    balance: Option<int>,
    currency: string,
    message: string)

  const PAYMENT_QUEUED := "Payment request queued for processing"
  const TRANSFER_QUEUED := "Transfer request queued for processing"

  /** The exception an initiation with an already stored reference raises. */
  function Duplicate(merchantReference: string): (e: Thrown)
    ensures e.PaymentError? && e.exception.cls == DuplicateTransaction
    ensures e.exception.statusCode == 409 && e.exception.errorCode == Some("DUPLICATE_TRANSACTION")
  {
    PaymentError(Raise(DuplicateTransaction, Some("Transaction with reference " + merchantReference + " already exists")))
  }

  // ---------------------------------------------------------------- what is stored

  function C2BRecord(dto: C2BPaymentDto, transactionId: string): CreateTransactionDto {
    CreateTransactionDto(transactionId, dto.merchantReference, C2B, dto.amount, Some(Or(dto.currency, DEFAULT_CURRENCY)),
                         Some(dto.phoneNumber), None, None, dto.description, Some(C2BRequest(dto)), None)
  }

  function C2BJobFor(dto: C2BPaymentDto, transactionId: string): C2BJobData {
    C2BJobData(transactionId, dto.merchantReference, dto.phoneNumber, dto.amount, Or(dto.currency, DEFAULT_CURRENCY),
               dto.merchantReference, dto.description, dto.networkCode, dto.callbackUrl)
  }

  function B2CRecord(dto: B2CPaymentDto, transactionId: string): CreateTransactionDto {
    CreateTransactionDto(transactionId, dto.merchantReference, B2C, dto.amount, Some(Or(dto.currency, DEFAULT_CURRENCY)),
                         Some(dto.phoneNumber), None, None, dto.reason, Some(B2CRequest(dto)), None)
  }

  function B2CJobFor(dto: B2CPaymentDto, transactionId: string): B2CJobData {
    B2CJobData(transactionId, dto.merchantReference, dto.phoneNumber, dto.amount, Or(dto.currency, DEFAULT_CURRENCY),
               dto.reason, dto.channel, dto.callbackUrl)
  }

  function B2BRecord(dto: B2BPaymentDto, transactionId: string): CreateTransactionDto {
    CreateTransactionDto(transactionId, dto.merchantReference, B2B, dto.amount, Some(Or(dto.currency, DEFAULT_CURRENCY)),
                         None, Some(dto.receiverMerchantCode), None, dto.reason, Some(B2BRequest(dto)), None)
  }

  function B2BJobFor(dto: B2BPaymentDto, transactionId: string): B2BJobData {
    B2BJobData(transactionId, dto.merchantReference, dto.receiverMerchantCode, dto.amount,
               Or(dto.currency, DEFAULT_CURRENCY), dto.reason, dto.callbackUrl,
               if Truthy(dto.accountReference) then dto.accountReference else None,
               dto.receiverAccountType, dto.networkCode)
  }

  /** The C2B record and job agree with the request: the record has the type C2B,
      the generated id and the given reference; the job carries the same id, the
      reference doubles as the account reference, and both use the request's
      currency or, when it is missing or empty, KES. */
  lemma C2BRecordAndJob(dto: C2BPaymentDto, transactionId: string)
    ensures var t := NewDocument(C2BRecord(dto, transactionId), 0); var j := C2BJobFor(dto, transactionId);
      && t.transactionId == j.transactionId == transactionId
      && t.merchantReference == j.merchantReference == j.accountReference == dto.merchantReference
      && t.transactionType == C2B && t.status == PENDING && t.amount == j.amount == dto.amount
      && t.currency == j.currency == (if Truthy(dto.currency) then dto.currency.value else "KES")
      && t.currency != "" && t.phoneNumber == Some(j.phoneNumber)
  {
  }

  /** The B2C record keeps the reason as its description. */
  lemma B2CRecordAndJob(dto: B2CPaymentDto, transactionId: string)
    ensures var t := NewDocument(B2CRecord(dto, transactionId), 0); var j := B2CJobFor(dto, transactionId);
      && t.transactionId == j.transactionId == transactionId
      && t.merchantReference == j.merchantReference == dto.merchantReference
      && t.transactionType == B2C && t.status == PENDING && t.amount == j.amount == dto.amount
      && t.currency == j.currency == (if Truthy(dto.currency) then dto.currency.value else "KES")
      && t.description == j.reason == dto.reason && t.phoneNumber == Some(j.phoneNumber)
  {
  }

  /** The B2B record stores the receiver's merchant code as its account number and
      no phone number; the job has an account reference only when the request
      gives a non-empty one. */
  lemma B2BRecordAndJob(dto: B2BPaymentDto, transactionId: string)
    ensures var t := NewDocument(B2BRecord(dto, transactionId), 0); var j := B2BJobFor(dto, transactionId);
      && t.transactionId == j.transactionId == transactionId
      && t.merchantReference == j.merchantReference == dto.merchantReference
      && t.transactionType == B2B && t.status == PENDING
      && t.accountNumber == Some(dto.receiverMerchantCode) == Some(j.receiverMerchantCode) && t.phoneNumber.None?
      && t.currency == j.currency == (if Truthy(dto.currency) then dto.currency.value else "KES")
      && (j.accountReference.Some? <==> Truthy(dto.accountReference))
      && (j.accountReference.Some? ==> j.accountReference == dto.accountReference)
  {
  }

  /** A job on a queue stands for a stored transaction: its id is the
      transaction's id and its payload is of the queue's type. */
  predicate JobsStored(jobs: seq<Job>, records: seq<Transaction>, t: TransactionType) {
    forall k :: 0 <= k < |jobs| ==>
      jobs[k].data.JobType() == t && jobs[k].data.TransactionId() == jobs[k].id
      && IndexOfTransactionId(records, jobs[k].id).Some?
  }

  /** Inserting a record keeps every earlier job pointing at a stored record. */
  lemma JobsStoredAppend(jobs: seq<Job>, records: seq<Transaction>, doc: Transaction, t: TransactionType)
    requires JobsStored(jobs, records, t)
    ensures JobsStored(jobs, records + [doc], t)
  {
    forall k | 0 <= k < |jobs|
      ensures IndexOfTransactionId(records + [doc], jobs[k].id).Some?
    {
      var i := IndexOfTransactionId(records, jobs[k].id).value;
      assert (records + [doc])[i] == records[i];
    }
  }

  /** A job for a new record can be added: ids of jobs are ids of stored records,
      so an id the store does not hold is not the id of any job. */
  lemma FreshIdHasNoJob(jobs: seq<Job>, records: seq<Transaction>, t: TransactionType, id: string)
    requires JobsStored(jobs, records, t) && IndexOfTransactionId(records, id).None?
    ensures forall k :: 0 <= k < |jobs| ==> jobs[k].id != id
  {
  }

  /** Adding the job of a record just stored keeps the jobs stored. */
  lemma JobsStoredAdd(jobs: seq<Job>, records: seq<Transaction>, doc: Transaction, t: TransactionType, job: Job)
    requires JobsStored(jobs, records, t)
    requires job.id == doc.transactionId && job.data.JobType() == t && job.data.TransactionId() == job.id
    ensures JobsStored(jobs + [job], records + [doc], t)
  {
    JobsStoredAppend(jobs, records, doc, t);
    var ys := records + [doc];
    assert ys[|records|].transactionId == job.id;
    assert IndexOfTransactionId(ys, job.id).Some?;
  }

  /** What a refused `queue.add` leaves behind. Nothing catches the error
      between `create` and `add`, so the PENDING record stays stored at the end
      of the collection; no job of the queue carries its id, so no worker ever
      picks it up; and its reference now counts as stored, so a resubmission of
      the same request is refused as a duplicate. */
  lemma RefusedAddOrphans(jobs: seq<Job>, records: seq<Transaction>, rec: CreateTransactionDto, t: TransactionType, now: int)
    requires JobsStored(jobs, records, t) && IndexOfTransactionId(records, rec.transactionId).None?
    ensures var after := records + [NewDocument(rec, now)];
      && IndexOfTransactionId(after, rec.transactionId) == Some(|records|)
      && after[|records|].status == PENDING
      && (forall k :: 0 <= k < |jobs| ==> jobs[k].id != rec.transactionId)
      && CountMerchantReference(after, rec.merchantReference) > 0
  {
    var doc := NewDocument(rec, now);
    var after := records + [doc];
    FreshIdHasNoJob(jobs, records, t, rec.transactionId);
    assert after[|records|] == doc;
    assert forall j :: 0 <= j < |records| ==> after[j].transactionId != rec.transactionId by {
      forall j | 0 <= j < |records| ensures after[j].transactionId != rec.transactionId {
        assert after[j] == records[j];
      }
    }
    var r := IndexOfTransactionId(after, rec.transactionId);
    assert r.Some?;
    assert r.value == |records|;
    CountPositive(after, rec.merchantReference);
  }

  class PaymentsService {
    const repo: TransactionRepository
    const c2bQueue: JobQueue
    const b2cQueue: JobQueue
    const b2bQueue: JobQueue

    /** Each queue holds only jobs of its own type, each keyed by the id of a
        stored transaction. */
    ghost predicate Valid()
      reads this, repo, c2bQueue, b2cQueue, b2bQueue
    {
      repo.Valid() && c2bQueue.Valid() && b2cQueue.Valid() && b2bQueue.Valid()
      && c2bQueue != b2cQueue && b2cQueue != b2bQueue && c2bQueue != b2bQueue
      && c2bQueue.name == C2B_QUEUE && b2cQueue.name == B2C_QUEUE && b2bQueue.name == B2B_QUEUE
      && JobsStored(c2bQueue.jobs, repo.records, C2B)
      && JobsStored(b2cQueue.jobs, repo.records, B2C)
      && JobsStored(b2bQueue.jobs, repo.records, B2B)
    }

    constructor(repo: TransactionRepository, c2bQueue: JobQueue, b2cQueue: JobQueue, b2bQueue: JobQueue)
      requires repo.Valid() && c2bQueue.Valid() && b2cQueue.Valid() && b2bQueue.Valid()
      requires c2bQueue != b2cQueue && b2cQueue != b2bQueue && c2bQueue != b2bQueue
      requires c2bQueue.name == C2B_QUEUE && b2cQueue.name == B2C_QUEUE && b2bQueue.name == B2B_QUEUE
      requires JobsStored(c2bQueue.jobs, repo.records, C2B)
      requires JobsStored(b2cQueue.jobs, repo.records, B2C)
      requires JobsStored(b2bQueue.jobs, repo.records, B2B)
      ensures Valid()
      ensures this.repo == repo && this.c2bQueue == c2bQueue && this.b2cQueue == b2cQueue && this.b2bQueue == b2bQueue
    {
      this.repo := repo;
      this.c2bQueue := c2bQueue;
      this.b2cQueue := b2cQueue;
      this.b2bQueue := b2bQueue;
    }

    /** `initiateC2BPayment`, with the generated id passed in. A stored reference
        raises DuplicateTransactionException and changes nothing; a record the
        store refuses raises its error and enqueues nothing; otherwise exactly one
        PENDING record is added, and then one job with `jobId == transactionId`,
        unless Redis refuses the add (`queueRefusal`): that error propagates and
        the record stays stored without a job. */
    method InitiateC2BPayment(dto: C2BPaymentDto, transactionId: string, queueRefusal: Option<Thrown>, now: int)
      returns (r: Result<PaymentResponseDto, Thrown>)
      requires Valid()
      modifies repo, c2bQueue
      ensures Valid()
      ensures var doc := NewDocument(C2BRecord(dto, transactionId), now);
        if old(repo.Exists(dto.merchantReference)) then
          r == Failure(Duplicate(dto.merchantReference))
          && repo.records == old(repo.records) && c2bQueue.jobs == old(c2bQueue.jobs)
        else match CreateError(doc, old(repo.records))
          case Some(e) => r == Failure(e) && repo.records == old(repo.records) && c2bQueue.jobs == old(c2bQueue.jobs)
          case None =>
            && repo.records == old(repo.records) + [doc]
            && if queueRefusal.Some? then
                 r == Failure(queueRefusal.value) && c2bQueue.jobs == old(c2bQueue.jobs)
               else
                 && c2bQueue.jobs == old(c2bQueue.jobs) + [Job(C2B_PAYMENT, transactionId, C2BJob(C2BJobFor(dto, transactionId)))]
                 && r == Success(PaymentResponseDto(transactionId, dto.merchantReference, PENDING, PAYMENT_QUEUED))
    {
      if repo.Exists(dto.merchantReference) {
        return Failure(Duplicate(dto.merchantReference));
      }
      ghost var records0 := repo.records;
      var created := repo.Create(C2BRecord(dto, transactionId), now);
      if created.Failure? {
        return Failure(created.error);
      }
      var job := Job(C2B_PAYMENT, transactionId, C2BJob(C2BJobFor(dto, transactionId)));
      FreshIdHasNoJob(c2bQueue.jobs, records0, C2B, transactionId);
      JobsStoredAdd(c2bQueue.jobs, records0, created.value, C2B, job);
      JobsStoredAppend(c2bQueue.jobs, records0, created.value, C2B);
      JobsStoredAppend(b2cQueue.jobs, records0, created.value, B2C);
      JobsStoredAppend(b2bQueue.jobs, records0, created.value, B2B);
      var refused := c2bQueue.Add(C2B_PAYMENT, job.data, transactionId, queueRefusal);
      if refused.Some? {
        return Failure(refused.value);
      }
      r := Success(PaymentResponseDto(transactionId, dto.merchantReference, PENDING, PAYMENT_QUEUED));
    }

    /** `initiateB2CPayment`: the same steps on the B2C queue; the reply says the
        payment request is queued. */
    method InitiateB2CPayment(dto: B2CPaymentDto, transactionId: string, queueRefusal: Option<Thrown>, now: int)
      returns (r: Result<PaymentResponseDto, Thrown>)
      requires Valid()
      modifies repo, b2cQueue
      ensures Valid()
      ensures var doc := NewDocument(B2CRecord(dto, transactionId), now);
        if old(repo.Exists(dto.merchantReference)) then
          r == Failure(Duplicate(dto.merchantReference))
          && repo.records == old(repo.records) && b2cQueue.jobs == old(b2cQueue.jobs)
        else match CreateError(doc, old(repo.records))
          case Some(e) => r == Failure(e) && repo.records == old(repo.records) && b2cQueue.jobs == old(b2cQueue.jobs)
          case None =>
            && repo.records == old(repo.records) + [doc]
            && if queueRefusal.Some? then
                 r == Failure(queueRefusal.value) && b2cQueue.jobs == old(b2cQueue.jobs)
               else
                 && b2cQueue.jobs == old(b2cQueue.jobs) + [Job(B2C_PAYMENT, transactionId, B2CJob(B2CJobFor(dto, transactionId)))]
                 && r == Success(PaymentResponseDto(transactionId, dto.merchantReference, PENDING, PAYMENT_QUEUED))
    {
      if repo.Exists(dto.merchantReference) {
        return Failure(Duplicate(dto.merchantReference));
      }
      ghost var records0 := repo.records;
      var created := repo.Create(B2CRecord(dto, transactionId), now);
      if created.Failure? {
        return Failure(created.error);
      }
      var job := Job(B2C_PAYMENT, transactionId, B2CJob(B2CJobFor(dto, transactionId)));
      FreshIdHasNoJob(b2cQueue.jobs, records0, B2C, transactionId);
      JobsStoredAdd(b2cQueue.jobs, records0, created.value, B2C, job);
      JobsStoredAppend(b2cQueue.jobs, records0, created.value, B2C);
      JobsStoredAppend(c2bQueue.jobs, records0, created.value, C2B);
      JobsStoredAppend(b2bQueue.jobs, records0, created.value, B2B);
      var refused := b2cQueue.Add(B2C_PAYMENT, job.data, transactionId, queueRefusal);
      if refused.Some? {
        return Failure(refused.value);
      }
      r := Success(PaymentResponseDto(transactionId, dto.merchantReference, PENDING, PAYMENT_QUEUED));
    }

    /** `initiateB2BTransfer`: the same steps on the B2B queue; the reply says the
        transfer request is queued. */
    method InitiateB2BTransfer(dto: B2BPaymentDto, transactionId: string, queueRefusal: Option<Thrown>, now: int)
      returns (r: Result<PaymentResponseDto, Thrown>)
      requires Valid()
      modifies repo, b2bQueue
      ensures Valid()
      ensures var doc := NewDocument(B2BRecord(dto, transactionId), now);
        if old(repo.Exists(dto.merchantReference)) then
          r == Failure(Duplicate(dto.merchantReference))
          && repo.records == old(repo.records) && b2bQueue.jobs == old(b2bQueue.jobs)
        else match CreateError(doc, old(repo.records))
          case Some(e) => r == Failure(e) && repo.records == old(repo.records) && b2bQueue.jobs == old(b2bQueue.jobs)
          case None =>
            && repo.records == old(repo.records) + [doc]
            && if queueRefusal.Some? then
                 r == Failure(queueRefusal.value) && b2bQueue.jobs == old(b2bQueue.jobs)
               else
                 && b2bQueue.jobs == old(b2bQueue.jobs) + [Job(B2B_TRANSFER, transactionId, B2BJob(B2BJobFor(dto, transactionId)))]
                 && r == Success(PaymentResponseDto(transactionId, dto.merchantReference, PENDING, TRANSFER_QUEUED))
    {
      if repo.Exists(dto.merchantReference) {
        return Failure(Duplicate(dto.merchantReference));
      }
      ghost var records0 := repo.records;
      var created := repo.Create(B2BRecord(dto, transactionId), now);
      if created.Failure? {
        return Failure(created.error);
      }
      var job := Job(B2B_TRANSFER, transactionId, B2BJob(B2BJobFor(dto, transactionId)));
      FreshIdHasNoJob(b2bQueue.jobs, records0, B2B, transactionId);
      JobsStoredAdd(b2bQueue.jobs, records0, created.value, B2B, job);
      JobsStoredAppend(b2bQueue.jobs, records0, created.value, B2B);
      JobsStoredAppend(c2bQueue.jobs, records0, created.value, C2B);
      JobsStoredAppend(b2cQueue.jobs, records0, created.value, B2C);
      var refused := b2bQueue.Add(B2B_TRANSFER, job.data, transactionId, queueRefusal);
      if refused.Some? {
        return Failure(refused.value);
      }
      r := Success(PaymentResponseDto(transactionId, dto.merchantReference, PENDING, TRANSFER_QUEUED));
    }
  }

  /** `getBalance`, with the provider's answer as a parameter: success, balance and
      message pass through, the currency falls back to KES, and a provider error
      propagates. */
  function GetBalance(response: Result<ResponseMapper.BalanceResponse, Thrown>): (r: Result<BalanceResponseDto, Thrown>)
    ensures response.Failure? ==> r == Failure(response.error)
    ensures response.Success? ==>
      && r.Success?
      && r.value.success == response.value.success && r.value.balance == response.value.balance
      && r.value.message == response.value.message && r.value.currency != ""
      && r.value.currency == (if response.value.currency != "" then response.value.currency else "KES")
  {
    match response
    case Failure(e) => Failure(e)
    case Success(b) => Success(BalanceResponseDto(b.success, b.balance, Or(Some(b.currency), "KES"), b.message))
  }
}
