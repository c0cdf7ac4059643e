/** IdempotencySchema: a stored idempotency key with the request it guarded and
    the response that was given, and its expiry. */
module IdempotencySchema {
  import opened Exceptions

  datatype IdempotencyKey = IdempotencyKey(
    key: string,
    endpoint: string,
    request: Details,
    response: Details,
    statusCode: int,
    transactionId: string,
    createdAt: int,
    expiresAt: int)

  /** The `required` validator on the string paths: present and not empty (the
      object, number and date paths are always present here). */
  predicate RequiredFieldsPresent(k: IdempotencyKey) {
    k.key != "" && k.endpoint != "" && k.transactionId != ""
  }

  /** No two records share a key (the unique index on `key`). */
  predicate UniqueKeys(records: seq<IdempotencyKey>) {
    forall i, j :: 0 <= i < j < |records| ==> records[i].key != records[j].key
  }

  /** The TTL index with `expireAfterSeconds: 0`: a record may be removed by the
      database from the moment its `expiresAt` is reached. */
  predicate Expired(k: IdempotencyKey, now: int) {
    k.expiresAt <= now
  }
}
