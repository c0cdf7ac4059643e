/** What one attempt of a payment job does to the transaction store, written as a
    function of the store before the attempt and the provider's answer. The C2B
    and B2C processors run the same algorithm and differ only in what they send
    to the provider and what part of the acknowledgment they keep; both are
    proved to follow `Attempt`. */
module Worker {
  import opened Wrappers
  import opened Exceptions
  import opened TransactionSchema
  import opened TransactionRepository

  /** The provider's acknowledgment as a processor uses it: whether it was
      accepted, its message, and the response the processor stores. */
  datatype Ack = Ack(success: bool, message: string, stored: StoredResponse)

  /** How an attempt ends: the job completes; it fails with an UnrecoverableError
      carrying the message (no further attempts); or the error is rethrown for the
      queue to retry. */
  datatype JobOutcome =
    | Completed
    | Unrecoverable(message: Option<string>)
    | Rethrown(error: Thrown)

  /** The status the catch block reads: `getStatus()` of a BasePaymentException,
      500 for anything else. */
  function FailureStatus(e: Thrown): (s: int)
    ensures e.PaymentError? ==> s == e.exception.statusCode
    ensures !e.PaymentError? ==> s == 500
  {
    if e.PaymentError? then e.exception.statusCode else INTERNAL_SERVER_ERROR
  }

  /** The retry decision: a status in [400, 500) becomes an UnrecoverableError with
      the error's message; anything else is rethrown unchanged. */
  function Classify(e: Thrown): (o: JobOutcome)
    ensures o.Unrecoverable? <==> e.PaymentError? && 400 <= e.exception.statusCode < 500
    ensures o.Unrecoverable? ==> o.message == ErrorMessage(e)
    ensures !o.Unrecoverable? ==> o == Rethrown(e)
  {
    var status := FailureStatus(e);
    if 400 <= status < 500 then Unrecoverable(ErrorMessage(e)) else Rethrown(e)
  }

  /** Every subclass of BasePaymentException stops the retries. */
  lemma SubclassesAreUnrecoverable(c: Subclass, message: Option<string>)
    ensures Classify(PaymentError(Raise(c, message))).Unrecoverable?
  {
  }

  /** The update that records an acknowledgment: the stored response, PROCESSING
      when it was accepted and FAILED with its message when it was not. */
  function AckUpdate(ack: Ack): (u: UpdateTransactionDto)
    ensures u.status == Some(if ack.success then PROCESSING else FAILED)
    ensures u.response == Some(ack.stored) && u.webhookData.None? && u.completedAt.None?
    ensures u.errorMessage == if ack.success then None else Some(ack.message)
  {
    UpdateTransactionDto(Some(if ack.success then PROCESSING else FAILED), Some(ack.stored), None,
                         if ack.success then None else Some(ack.message), None)
  }

  /** `updateByTransactionId` as a function on the collection; an unknown id
      leaves it as it is. */
  function Write(records: seq<Transaction>, id: string, u: UpdateTransactionDto, now: int): (rs: seq<Transaction>)
    ensures |rs| == |records|
    ensures IndexOfTransactionId(records, id).None? ==> rs == records
    ensures IndexOfTransactionId(records, id).Some? ==>
      var i := IndexOfTransactionId(records, id).value; rs == records[i := ApplyUpdate(records[i], u, now)]
  {
    match IndexOfTransactionId(records, id)
    case None => records
    case Some(i) => records[i := ApplyUpdate(records[i], u, now)]
  }

  datatype AttemptResult = AttemptResult(records: seq<Transaction>, outcome: JobOutcome)

  /** The catch block: mark the transaction FAILED with the error's message, then
      classify the error. */
  function Fail(records: seq<Transaction>, id: string, e: Thrown, now: int): AttemptResult {
    AttemptResult(Write(records, id, StatusUpdate(FAILED, ErrorMessage(e), now), now), Classify(e))
  }

  /** The message of the error a rejected acknowledgment raises. */
  function Rejection(kind: string, message: string): string {
    kind + " payment failed: " + message
  }

  /** The provider's answer as the worker sees it: a failure passes through, and
      an answer becomes the acknowledgment the processor keeps of it. */
  function AckResult<P>(response: Result<P, Thrown>, ackOf: P -> Ack): (r: Result<Ack, Thrown>)
    ensures response.Failure? ==> r == Failure(response.error)
    ensures response.Success? ==> r == Success(ackOf(response.value))
  {
    match response
    case Failure(e) => Failure(e)
    case Success(p) => Success(ackOf(p))
  }

  /** One attempt of `process`. If the first write finds no transaction, the
      catch block's own write fails the same way and that error leaves the
      worker unclassified. Otherwise: PROCESSING, the provider call, the
      acknowledgment written, and on a rejection or an error the catch block. */
  function Attempt(records: seq<Transaction>, id: string, provider: Result<Ack, Thrown>, kind: string, now: int): AttemptResult {
    match IndexOfTransactionId(records, id)
    case None => AttemptResult(records, Rethrown(PaymentError(NotFound(id))))
    case Some(i) =>
      var processing := records[i := ApplyUpdate(records[i], StatusUpdate(PROCESSING, None, now), now)];
      match provider
      case Failure(e) => Fail(processing, id, e, now)
      case Success(ack) =>
        var acked := Write(processing, id, AckUpdate(ack), now);
        if ack.success then AttemptResult(acked, Completed)
        else Fail(acked, id, PlainError(Rejection(kind, ack.message)), now)
  }

  /** No write changes a transaction's identity or creation time. */
  predicate SameIdentities(xs: seq<Transaction>, ys: seq<Transaction>) {
    |xs| == |ys| && forall k :: 0 <= k < |xs| ==>
      ys[k].transactionId == xs[k].transactionId && ys[k].merchantReference == xs[k].merchantReference
      && ys[k].createdAt == xs[k].createdAt
  }

  /** `ys` differs from `xs` at most in the records holding `id`, and no record's
      identity changes. */
  predicate OnlyTouches(xs: seq<Transaction>, ys: seq<Transaction>, id: string) {
    SameIdentities(xs, ys) && forall k :: 0 <= k < |xs| && xs[k].transactionId != id ==> ys[k] == xs[k]
  }

  lemma WriteKeepsIdentities(records: seq<Transaction>, id: string, u: UpdateTransactionDto, now: int)
    ensures OnlyTouches(records, Write(records, id, u, now), id)
    ensures IndexOfTransactionId(Write(records, id, u, now), id) == IndexOfTransactionId(records, id)
  {
    var rs := Write(records, id, u, now);
    assert SameIdentities(records, rs);
    IdentitiesKeepIndex(records, rs, id);
  }

  lemma OnlyTouchesTrans(xs: seq<Transaction>, ys: seq<Transaction>, zs: seq<Transaction>, id: string)
    requires OnlyTouches(xs, ys, id) && OnlyTouches(ys, zs, id)
    ensures OnlyTouches(xs, zs, id)
  {
    assert forall k :: 0 <= k < |xs| ==> ys[k].transactionId == xs[k].transactionId;
  }

  lemma {:induction false} IdentitiesKeepIndex(xs: seq<Transaction>, ys: seq<Transaction>, id: string)
    requires SameIdentities(xs, ys)
    ensures IndexOfTransactionId(ys, id) == IndexOfTransactionId(xs, id)
    decreases |xs|
  {
    if xs != [] && xs[0].transactionId != id {
      assert SameIdentities(xs[1..], ys[1..]);
      IdentitiesKeepIndex(xs[1..], ys[1..], id);
    }
  }

  /** The catch block touches only the job's own record. */
  lemma FailFrame(records: seq<Transaction>, written: seq<Transaction>, id: string, e: Thrown, now: int)
    requires OnlyTouches(records, written, id)
    ensures OnlyTouches(records, Fail(written, id, e, now).records, id)
  {
    var u := StatusUpdate(FAILED, ErrorMessage(e), now);
    WriteKeepsIdentities(written, id, u, now);
    OnlyTouchesTrans(records, written, Write(written, id, u, now), id);
  }

  /** An attempt changes at most the job's own record and never the identities
      of the stored transactions. */
  lemma AttemptFrame(records: seq<Transaction>, id: string, provider: Result<Ack, Thrown>, kind: string, now: int)
    ensures OnlyTouches(records, Attempt(records, id, provider, kind, now).records, id)
  {
    if IndexOfTransactionId(records, id).Some? {
      var u := StatusUpdate(PROCESSING, None, now);
      var processing := Write(records, id, u, now);
      WriteKeepsIdentities(records, id, u, now);
      match provider
      case Failure(e) =>
        FailFrame(records, processing, id, e, now);
      case Success(ack) =>
        var acked := Write(processing, id, AckUpdate(ack), now);
        WriteKeepsIdentities(processing, id, AckUpdate(ack), now);
        OnlyTouchesTrans(records, processing, acked, id);
        if !ack.success {
          FailFrame(records, acked, id, PlainError(Rejection(kind, ack.message)), now);
        }
    }
  }

  /** An attempt on a transaction that is not stored changes nothing, and the
      not-found error it raises is rethrown, so the queue retries it. */
  lemma AttemptUnknownTransaction(records: seq<Transaction>, id: string, provider: Result<Ack, Thrown>, kind: string, now: int)
    requires IndexOfTransactionId(records, id).None?
    ensures Attempt(records, id, provider, kind, now) == AttemptResult(records, Rethrown(PaymentError(NotFound(id))))
  {
  }

  /** An accepted acknowledgment: the job completes, the record is PROCESSING and
      holds the acknowledgment, and neither its error message nor its completion
      time is touched. */
  lemma AttemptAccepted(records: seq<Transaction>, id: string, ack: Ack, kind: string, now: int)
    requires IndexOfTransactionId(records, id).Some? && ack.success
    ensures var i := IndexOfTransactionId(records, id).value;
      var a := Attempt(records, id, Success(ack), kind, now);
      && a.outcome == Completed
      && a.records[i].status == PROCESSING && a.records[i].response == Some(ack.stored)
      && a.records[i].errorMessage == records[i].errorMessage
      && a.records[i].completedAt == records[i].completedAt
      && a.records[i].updatedAt == now
  {
    var i := IndexOfTransactionId(records, id).value;
    var processing := records[i := ApplyUpdate(records[i], StatusUpdate(PROCESSING, None, now), now)];
    IdentitiesKeepIndex(records, processing, id);
  }

  /** A rejected acknowledgment: the record keeps the acknowledgment and ends
      FAILED, completed now, with the rejection's message; the plain Error is
      classified as 500 and rethrown, so the job is retried. */
  lemma AttemptRejected(records: seq<Transaction>, id: string, ack: Ack, kind: string, now: int)
    requires IndexOfTransactionId(records, id).Some? && !ack.success
    ensures var i := IndexOfTransactionId(records, id).value;
      var a := Attempt(records, id, Success(ack), kind, now);
      && a.outcome == Rethrown(PlainError(Rejection(kind, ack.message)))
      && a.records[i].status == FAILED && a.records[i].response == Some(ack.stored)
      && a.records[i].errorMessage == Some(Rejection(kind, ack.message))
      && a.records[i].completedAt == Some(now)
  {
    var i := IndexOfTransactionId(records, id).value;
    var processing := records[i := ApplyUpdate(records[i], StatusUpdate(PROCESSING, None, now), now)];
    IdentitiesKeepIndex(records, processing, id);
    var acked := Write(processing, id, AckUpdate(ack), now);
    WriteKeepsIdentities(processing, id, AckUpdate(ack), now);
  }

  /** A provider error: the record ends FAILED, completed now, with the error's
      message; a payment exception in the 4xx band stops the retries and any other
      error is rethrown. */
  lemma AttemptProviderError(records: seq<Transaction>, id: string, e: Thrown, kind: string, now: int)
    requires IndexOfTransactionId(records, id).Some?
    ensures var i := IndexOfTransactionId(records, id).value;
      var a := Attempt(records, id, Failure(e), kind, now);
      && a.outcome == Classify(e)
      && a.records[i].status == FAILED
      && a.records[i].completedAt == Some(now)
      && (ErrorMessage(e).Some? ==> a.records[i].errorMessage == ErrorMessage(e))
      && a.records[i].response == records[i].response
  {
    var i := IndexOfTransactionId(records, id).value;
    var processing := records[i := ApplyUpdate(records[i], StatusUpdate(PROCESSING, None, now), now)];
    IdentitiesKeepIndex(records, processing, id);
  }
}
