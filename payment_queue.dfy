/** The three payment job queues: the job payloads the service enqueues, the queue
    and job names, and a queue held as the sequence of jobs added to it, keyed by
    job id. */
module PaymentQueue {
  import opened Wrappers
  import opened TransactionSchema
  import opened Exceptions

  /** Queue names. */
  const C2B_QUEUE := "c2b-payments"
  const B2C_QUEUE := "b2c-payments"
  const B2B_QUEUE := "b2b-payments"

  /** Job names. */
  const C2B_PAYMENT := "c2b-payment"
  const B2C_PAYMENT := "b2c-payment"
  const B2B_TRANSFER := "b2b-transfer"

  datatype C2BJobData = C2BJobData(
    transactionId: string,
    merchantReference: string,
    phoneNumber: string,
    amount: int,
    currency: string,
    accountReference: string,
    description: Option<string>,
    networkCode: Option<string>,
    callbackUrl: Option<string>)

  datatype B2CJobData = B2CJobData(
    transactionId: string,
    merchantReference: string,
    phoneNumber: string,
    amount: int,
    currency: string,
    reason: Option<string>,
    channel: Option<string>,
    callbackUrl: Option<string>)

  datatype B2BJobData = B2BJobData(
    transactionId: string,
    merchantReference: string,
    receiverMerchantCode: string,
    amount: int,
    currency: string,
    reason: Option<string>,
    callbackUrl: Option<string>,
    accountReference: Option<string>,
    receiverAccountType: string,
    networkCode: string)

  /** `PaymentJobData`: the union of the three payloads, told apart by `type`. */
  datatype PaymentJobData =
    | C2BJob(c2b: C2BJobData)
    | B2CJob(b2c: B2CJobData)
    | B2BJob(b2b: B2BJobData)
  {
    function JobType(): TransactionType {
      match this
      case C2BJob(_) => C2B
      case B2CJob(_) => B2C
      case B2BJob(_) => B2B
    }

    function TransactionId(): string {
      match this
      case C2BJob(d) => d.transactionId
      case B2CJob(d) => d.transactionId
      case B2BJob(d) => d.transactionId
    }
  }

  datatype Job = Job(name: string, id: string, data: PaymentJobData)

  /** No two jobs of a queue share an id. */
  predicate UniqueJobIds(jobs: seq<Job>) {
    forall i, j :: 0 <= i < j < |jobs| ==> jobs[i].id != jobs[j].id
  }

  /** A queue: the jobs added to it, in order. Taking jobs off the queue belongs to
      the worker library and is not part of this model. */
  class JobQueue {
    const name: string
    var jobs: seq<Job>

    ghost predicate Valid()
      reads this
    {
      UniqueJobIds(jobs)
    }

    constructor(name: string)
      ensures Valid() && this.name == name && jobs == []
    {
      this.name := name;
      jobs := [];
    }

    /** Whether a job with this id has been added. */
    function HasJob(id: string): (b: bool)
      reads this
    {
      exists i :: 0 <= i < |jobs| && jobs[i].id == id
    }

    /** `queue.add(name, data, { jobId })`. `refusal` is Redis's answer to the
        command: `None` when it is accepted, or the error the add rejects with
        (a lost connection, say), which is returned and adds nothing. A job whose
        id is already present is not added a second time. */
    method Add(jobName: string, data: PaymentJobData, jobId: string, refusal: Option<Thrown>)
      returns (error: Option<Thrown>)
      requires Valid()
      modifies this
      ensures Valid()
      ensures error == refusal
      ensures refusal.Some? || old(HasJob(jobId)) ==> jobs == old(jobs)
      ensures refusal.None? && !old(HasJob(jobId)) ==> jobs == old(jobs) + [Job(jobName, jobId, data)]
    {
      error := refusal;
      if refusal.Some? || HasJob(jobId) {
        return;
      }
      jobs := jobs + [Job(jobName, jobId, data)];
    }
  }
}
