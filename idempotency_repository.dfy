/** IdempotencyRepository: the idempotency-key collection, held as a sequence of
    documents in insertion order. */
module IdempotencyRepository {
  import opened Wrappers
  import opened Exceptions
  import opened IdempotencySchema

  datatype CreateIdempotencyKeyDto = CreateIdempotencyKeyDto(
    key: string,
    endpoint: string,
    request: Details,
    response: Details,
    statusCode: int,
    transactionId: string,
    ttl: int)

  /** The message of the error the database raises on a document that fails
      schema validation. */
  const VALIDATION_FAILED := "IdempotencyKey validation failed"
  /** The message of the error the database raises on a unique-index violation. */
  const DUPLICATE_KEY := "E11000 duplicate key error"

  /** The document `create` builds: the given fields, created now and expiring
      `ttl` seconds from now. */
  function NewRecord(dto: CreateIdempotencyKeyDto, now: int): (k: IdempotencyKey)
    ensures k.key == dto.key && k.endpoint == dto.endpoint && k.request == dto.request
    ensures k.response == dto.response && k.statusCode == dto.statusCode && k.transactionId == dto.transactionId
    ensures k.createdAt == now && k.expiresAt == now + dto.ttl * 1000
  {
    IdempotencyKey(dto.key, dto.endpoint, dto.request, dto.response, dto.statusCode, dto.transactionId,
                   now, now + dto.ttl * 1000)
  }

  /** A new record lives exactly `ttl` seconds: it is expired at every instant
      from `now + ttl * 1000` on, and at no instant before. */
  lemma ExpiryWindow(dto: CreateIdempotencyKeyDto, now: int, t: int)
    ensures Expired(NewRecord(dto, now), t) <==> t - now >= dto.ttl * 1000
  {
  }

  /** The position of the first record with the key. */
  function IndexOfKey(xs: seq<IdempotencyKey>, key: string): (r: Option<nat>)
    ensures r.Some? ==> r.value < |xs| && xs[r.value].key == key
    ensures r.Some? ==> forall j :: 0 <= j < r.value ==> xs[j].key != key
    ensures r.None? ==> forall j :: 0 <= j < |xs| ==> xs[j].key != key
  {
    if |xs| == 0 then None
    else if xs[0].key == key then Some(0)
    else match IndexOfKey(xs[1..], key)
      case None => None
      case Some(i) => Some(i + 1)
  }

  /** Why `create` rejects a document: validation first, then the unique index. */
  function CreateError(doc: IdempotencyKey, xs: seq<IdempotencyKey>): (e: Option<Thrown>)
    ensures e.None? <==> RequiredFieldsPresent(doc) && IndexOfKey(xs, doc.key).None?
    ensures !RequiredFieldsPresent(doc) ==> e == Some(PlainError(VALIDATION_FAILED))
  {
    if !RequiredFieldsPresent(doc) then Some(PlainError(VALIDATION_FAILED))
    else if IndexOfKey(xs, doc.key).Some? then Some(PlainError(DUPLICATE_KEY))
    else None
  }

  /** The collection invariant: unique keys, and every document passed validation. */
  predicate WellFormed(xs: seq<IdempotencyKey>) {
    UniqueKeys(xs) && forall i :: 0 <= i < |xs| ==> RequiredFieldsPresent(xs[i])
  }

  /** The records `deleteMany({ expiresAt: { $lte: now } })` leaves, in order. */
  function Unexpired(xs: seq<IdempotencyKey>, now: int): (r: seq<IdempotencyKey>)
    ensures |r| <= |xs|
    ensures forall k :: k in r ==> k in xs && !Expired(k, now)
  {
    if |xs| == 0 then []
    else if Expired(xs[0], now) then Unexpired(xs[1..], now)
    else [xs[0]] + Unexpired(xs[1..], now)
  }

  /** The number of expired records. */
  function CountExpired(xs: seq<IdempotencyKey>, now: int): (n: nat)
    ensures n <= |xs|
  {
    if |xs| == 0 then 0
    else (if Expired(xs[0], now) then 1 else 0) + CountExpired(xs[1..], now)
  }

  /** `deleteExpired` removes exactly the expired records: every unexpired record
      stays, and the records removed are as many as the expired ones. */
  lemma {:induction false} UnexpiredExact(xs: seq<IdempotencyKey>, now: int)
    ensures forall k :: k in xs && !Expired(k, now) ==> k in Unexpired(xs, now)
    ensures |xs| - |Unexpired(xs, now)| == CountExpired(xs, now)
    decreases |xs|
  {
    if |xs| > 0 {
      UnexpiredExact(xs[1..], now);
      assert forall k :: k in xs ==> k == xs[0] || k in xs[1..];
    }
  }

  /** Removing records keeps the collection well formed. */
  lemma {:induction false} UnexpiredWellFormed(xs: seq<IdempotencyKey>, now: int)
    requires WellFormed(xs)
    ensures WellFormed(Unexpired(xs, now))
    decreases |xs|
  {
    if |xs| > 0 {
      assert WellFormed(xs[1..]);
      UnexpiredWellFormed(xs[1..], now);
      var rest := Unexpired(xs[1..], now);
      forall k | k in rest
        ensures k.key != xs[0].key
      {
        var j :| 0 <= j < |xs[1..]| && xs[1..][j] == k;
        assert xs[j + 1] == k;
      }
    }
  }

  /** The first record with the key taken out. */
  function RemoveAt(xs: seq<IdempotencyKey>, i: nat): (r: seq<IdempotencyKey>)
    requires i < |xs|
    ensures |r| == |xs| - 1
  {
    xs[..i] + xs[i + 1..]
  }

  lemma RemoveAtWellFormed(xs: seq<IdempotencyKey>, i: nat)
    requires WellFormed(xs) && i < |xs|
    ensures WellFormed(RemoveAt(xs, i))
    ensures forall k :: k in RemoveAt(xs, i) ==> k.key != xs[i].key
  {
    var r := RemoveAt(xs, i);
    assert forall j :: 0 <= j < |r| ==> r[j] == if j < i then xs[j] else xs[j + 1];
  }

  class IdempotencyRepository {
    var records: seq<IdempotencyKey>

    ghost predicate Valid()
      reads this
    {
      WellFormed(records)
    }

    constructor()
      ensures Valid() && records == []
    {
      records := [];
    }

    /** `create`: insert the new document, or report why the database refused it. */
    method Create(dto: CreateIdempotencyKeyDto, now: int) returns (r: Result<IdempotencyKey, Thrown>)
      requires Valid()
      modifies this
      ensures Valid()
      ensures var doc := NewRecord(dto, now);
        match CreateError(doc, old(records))
        case None => r == Success(doc) && records == old(records) + [doc]
        case Some(e) => r == Failure(e) && records == old(records)
    {
      var doc := NewRecord(dto, now);
      var err := CreateError(doc, records);
      if err.Some? {
        return Failure(err.value);
      }
      records := records + [doc];
      r := Success(doc);
    }

    /** `findByKey` */
    function FindByKey(key: string): (r: Option<IdempotencyKey>)
      reads this
      ensures r.Some? <==> exists i :: 0 <= i < |records| && records[i].key == key
      ensures r.Some? ==> r.value in records && r.value.key == key
    {
      match IndexOfKey(records, key)
      case None => None
      case Some(i) => Some(records[i])
    }

    /** `exists` */
    function Exists(key: string): (b: bool)
      reads this
      ensures b <==> exists i :: 0 <= i < |records| && records[i].key == key
    {
      IndexOfKey(records, key).Some?
    }

    /** `deleteExpired` */
    method DeleteExpired(now: int) returns (count: nat)
      requires Valid()
      modifies this
      ensures Valid()
      ensures records == Unexpired(old(records), now)
      ensures count == CountExpired(old(records), now)
    {
      UnexpiredExact(records, now);
      UnexpiredWellFormed(records, now);
      count := |records| - |Unexpired(records, now)|;
      records := Unexpired(records, now);
    }

    /** `deleteByKey`: true exactly when a record was removed. */
    method DeleteByKey(key: string) returns (removed: bool)
      requires Valid()
      modifies this
      ensures Valid()
      ensures removed <==> old(Exists(key))
      ensures !removed ==> records == old(records)
      ensures removed ==> |records| == |old(records)| - 1 && !Exists(key)
      ensures forall k :: k in old(records) && k.key != key ==> k in records
    {
      var i := IndexOfKey(records, key);
      if i.None? {
        return false;
      }
      RemoveAtWellFormed(records, i.value);
      ghost var before := records;
      records := RemoveAt(records, i.value);
      assert forall k :: k in before && k.key != key ==> k in records by {
        forall k | k in before && k.key != key
          ensures k in records
        {
          var j :| 0 <= j < |before| && before[j] == k;
          if j < i.value {
            assert records[j] == k;
          } else {
            assert j > i.value;
            assert records[j - 1] == k;
          }
        }
      }
      removed := true;
    }
  }

  /** Once a key is stored, looking it up finds that record, and a second create
      of the same key is refused. */
  lemma CreateThenFind(xs: seq<IdempotencyKey>, dto: CreateIdempotencyKeyDto, now: int)
    requires CreateError(NewRecord(dto, now), xs).None?
    ensures IndexOfKey(xs + [NewRecord(dto, now)], dto.key) == Some(|xs|)
    ensures CreateError(NewRecord(dto, now), xs + [NewRecord(dto, now)]) == Some(PlainError(DUPLICATE_KEY))
  {
    IndexOfLast(xs, NewRecord(dto, now));
  }

  lemma {:induction false} IndexOfLast(xs: seq<IdempotencyKey>, doc: IdempotencyKey)
    requires IndexOfKey(xs, doc.key).None?
    ensures IndexOfKey(xs + [doc], doc.key) == Some(|xs|)
    decreases |xs|
  {
    if |xs| > 0 {
      assert (xs + [doc])[1..] == xs[1..] + [doc];
      IndexOfLast(xs[1..], doc);
    }
  }
}
