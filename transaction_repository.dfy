/** TransactionRepository: the transaction collection, held as a sequence of
    documents in insertion order, with inserts, updates by transaction id and the
    read-only queries (lookups, existence, and the filter-sort-limit lists). */
module TransactionRepository {
  import opened Wrappers
  import opened JsText
  import opened Exceptions
  import opened SasaPayDto
  import opened TransactionSchema

  datatype CreateTransactionDto = CreateTransactionDto(
    transactionId: string,
    merchantReference: string,
    transactionType: TransactionType,
    amount: int,
    currency: Option<string>,
    phoneNumber: Option<string>,
    accountNumber: Option<string>,
    accountName: Option<string>,
    description: Option<string>,
    request: Option<StoredRequest>,
    metadata: Option<Details>)

  /** The fields an update may set; `None` is a key left `undefined`, which the
      update does not write, so the stored value stays. (The `updatedAt` key is
      left out: every update overwrites it with the current time.) */
  datatype UpdateTransactionDto = UpdateTransactionDto(
    status: Option<TransactionStatus>,
    response: Option<StoredResponse>,
    webhookData: Option<WebhookPayload>,
    errorMessage: Option<string>,
    completedAt: Option<int>)

  /** The message of the error the database raises on a document that fails
      schema validation. */
  const VALIDATION_FAILED := "Transaction validation failed"
  /** The message of the error the database raises on a unique-index violation. */
  const DUPLICATE_KEY := "E11000 duplicate key error"

  // ---------------------------------------------------------------- documents

  /** The document `create` builds: the given fields, status PENDING whatever the
      input, the currency default, and both timestamps set to now. */
  function NewDocument(dto: CreateTransactionDto, now: int): (t: Transaction)
    ensures t.status == PENDING && t.createdAt == now && t.updatedAt == now
    ensures t.transactionId == dto.transactionId && t.merchantReference == dto.merchantReference
    ensures t.transactionType == dto.transactionType && t.amount == dto.amount
    ensures t.currency == if dto.currency.Some? then dto.currency.value else DEFAULT_CURRENCY
    ensures t.response.None? && t.webhookData.None? && t.errorMessage.None? && t.completedAt.None?
    ensures t.phoneNumber == dto.phoneNumber && t.accountNumber == dto.accountNumber
    ensures t.accountName == dto.accountName && t.description == dto.description
    ensures t.request == dto.request && t.metadata == dto.metadata
  {
    Transaction(
      transactionId := dto.transactionId,
      merchantReference := dto.merchantReference,
      transactionType := dto.transactionType,
      amount := dto.amount,
      currency := dto.currency.GetOr(DEFAULT_CURRENCY),
      phoneNumber := dto.phoneNumber,
      accountNumber := dto.accountNumber,
      accountName := dto.accountName,
      description := dto.description,
      status := PENDING,
      request := dto.request,
      response := None,
      webhookData := None,
      errorMessage := None,
      completedAt := None,
      metadata := dto.metadata,
      createdAt := now,
      updatedAt := now)
  }

  /** `{ ...dto, updatedAt: now }` applied to a stored document: the fields the
      update gives replace the stored ones, the rest stay. */
  function ApplyUpdate(t: Transaction, u: UpdateTransactionDto, now: int): (t': Transaction)
    ensures t'.transactionId == t.transactionId && t'.merchantReference == t.merchantReference
    ensures t'.transactionType == t.transactionType && t'.amount == t.amount && t'.currency == t.currency
    ensures t'.createdAt == t.createdAt && t'.updatedAt == now
    ensures t'.status == (if u.status.Some? then u.status.value else t.status)
    ensures t'.completedAt == (if u.completedAt.Some? then u.completedAt else t.completedAt)
    ensures t'.response == (if u.response.Some? then u.response else t.response)
    ensures t'.webhookData == (if u.webhookData.Some? then u.webhookData else t.webhookData)
    ensures t'.errorMessage == (if u.errorMessage.Some? then u.errorMessage else t.errorMessage)
    ensures t'.phoneNumber == t.phoneNumber && t'.accountNumber == t.accountNumber
    ensures t'.accountName == t.accountName && t'.description == t.description
    ensures t'.request == t.request && t'.metadata == t.metadata
    ensures RequiredFieldsPresent(t) ==> RequiredFieldsPresent(t')
  {
    t.(status := u.status.GetOr(t.status),
       response := Coalesce(u.response, t.response),
       webhookData := Coalesce(u.webhookData, t.webhookData),
       errorMessage := Coalesce(u.errorMessage, t.errorMessage),
       completedAt := Coalesce(u.completedAt, t.completedAt),
       updatedAt := now)
  }

  /** Applying the same update twice at the same time is applying it once. */
  lemma ApplyUpdateIdempotent(t: Transaction, u: UpdateTransactionDto, now: int)
    ensures ApplyUpdate(ApplyUpdate(t, u, now), u, now) == ApplyUpdate(t, u, now)
  {
  }

  /** The update `updateStatus` sends: the status, the error message (absent when
      not given) and, for SUCCESS and FAILED only, `completedAt`. */
  function StatusUpdate(status: TransactionStatus, errorMessage: Option<string>, now: int): (u: UpdateTransactionDto)
    ensures u.status == Some(status) && u.errorMessage == errorMessage
    ensures u.response.None? && u.webhookData.None?
    ensures u.completedAt.Some? <==> IsCompletion(status)
    ensures u.completedAt.Some? ==> u.completedAt.value == now
  {
    UpdateTransactionDto(Some(status), None, None, errorMessage, if IsCompletion(status) then Some(now) else None)
  }

  /** `updateStatus` stamps `completedAt` exactly for SUCCESS and FAILED; CANCELLED,
      PENDING and PROCESSING leave it as it was. */
  lemma StatusUpdateCompletion(t: Transaction, status: TransactionStatus, errorMessage: Option<string>, now: int)
    ensures var t' := ApplyUpdate(t, StatusUpdate(status, errorMessage, now), now);
      && t'.status == status
      && (IsCompletion(status) ==> t'.completedAt == Some(now))
      && (!IsCompletion(status) ==> t'.completedAt == t.completedAt)
      && (errorMessage.Some? ==> t'.errorMessage == errorMessage)
      && (errorMessage.None? ==> t'.errorMessage == t.errorMessage)
  {
  }

  // ---------------------------------------------------------------- sequences

  /** Documents in order of creation time, oldest first. */
  predicate Ascending(xs: seq<Transaction>) {
    forall i, j :: 0 <= i < j < |xs| ==> xs[i].createdAt <= xs[j].createdAt
  }

  /** Documents in order of creation time, newest first. */
  predicate Descending(xs: seq<Transaction>) {
    forall i, j :: 0 <= i < j < |xs| ==> xs[i].createdAt >= xs[j].createdAt
  }

  /** `find(query)`: the documents matching, in stored order. */
  function Filter(xs: seq<Transaction>, matches: Transaction -> bool): (r: seq<Transaction>)
    ensures |r| <= |xs|
    decreases |xs|
  {
    if xs == [] then []
    else (if matches(xs[0]) then [xs[0]] else []) + Filter(xs[1..], matches)
  }

  /** A query returns exactly the stored documents that match. */
  lemma {:induction false} FilterMembers(xs: seq<Transaction>, matches: Transaction -> bool)
    ensures forall x :: x in Filter(xs, matches) <==> x in xs && matches(x)
    decreases |xs|
  {
    if xs != [] {
      FilterMembers(xs[1..], matches);
      assert forall x :: x in xs <==> x == xs[0] || x in xs[1..];
    }
  }

  /** The tail of an ascending sequence is ascending and starts no earlier than
      its head. */
  lemma AscendingTail(xs: seq<Transaction>)
    requires xs != [] && Ascending(xs)
    ensures Ascending(xs[1..])
    ensures forall k :: 0 <= k < |xs[1..]| ==> xs[0].createdAt <= xs[1..][k].createdAt
  {
    assert forall k :: 0 <= k < |xs[1..]| ==> xs[1..][k] == xs[k + 1];
  }

  /** A document no later than every document of an ascending sequence can go in
      front of it. */
  lemma AscendingCons(x: Transaction, rest: seq<Transaction>)
    requires Ascending(rest) && forall y :: y in rest ==> x.createdAt <= y.createdAt
    ensures Ascending([x] + rest)
  {
    var r := [x] + rest;
    assert forall k :: 1 <= k < |r| ==> r[k] == rest[k - 1];
  }

  /** Inserts a document into a sequence ordered by creation time, in front of
      the first document that is not older. */
  function Insert(x: Transaction, s: seq<Transaction>): (r: seq<Transaction>)
    ensures |r| == |s| + 1 && multiset(r) == multiset(s) + multiset{x}
    decreases |s|
  {
    if s == [] || x.createdAt <= s[0].createdAt then [x] + s
    else
      assert s == [s[0]] + s[1..];
      [s[0]] + Insert(x, s[1..])
  }

  /** Insertion keeps a sequence in order of creation time. */
  lemma {:induction false} InsertAscending(x: Transaction, s: seq<Transaction>)
    requires Ascending(s)
    ensures Ascending(Insert(x, s))
    decreases |s|
  {
    if s == [] || x.createdAt <= s[0].createdAt {
      assert forall y :: y in s ==> s[0].createdAt <= y.createdAt;
      AscendingCons(x, s);
    } else {
      AscendingTail(s);
      InsertAscending(x, s[1..]);
      var rest := Insert(x, s[1..]);
      assert forall y :: y in rest ==> y in multiset(s[1..]) + multiset{x};
      AscendingCons(s[0], rest);
    }
  }

  /** `sort({ createdAt: 1 })`: the documents ordered by creation time, oldest
      first; documents created at the same time keep their stored order. */
  function SortByCreated(xs: seq<Transaction>): (r: seq<Transaction>)
    ensures |r| == |xs| && multiset(r) == multiset(xs)
    decreases |xs|
  {
    if xs == [] then []
    else
      assert xs == [xs[0]] + xs[1..];
      Insert(xs[0], SortByCreated(xs[1..]))
  }

  /** The sort orders by creation time, whatever order the documents were
      stored in. */
  lemma {:induction false} SortAscending(xs: seq<Transaction>)
    ensures Ascending(SortByCreated(xs))
    decreases |xs|
  {
    if xs != [] {
      SortAscending(xs[1..]);
      InsertAscending(xs[0], SortByCreated(xs[1..]));
    }
  }

  /** A document of a sub-multiset is a document of the whole. */
  lemma MultisetMembers(a: seq<Transaction>, b: seq<Transaction>)
    requires multiset(a) <= multiset(b)
    ensures forall x :: x in a ==> x in b
  {
    forall x | x in a
      ensures x in b
    {
      assert x in multiset(a);
    }
  }

  /** Splitting a sequence at k splits its multiset of documents. */
  lemma TakeDrop(s: seq<Transaction>, k: nat)
    requires k <= |s|
    ensures multiset(s[..k]) <= multiset(s)
    ensures multiset(s) - multiset(s[..k]) == multiset(s[k..])
  {
    assert s == s[..k] + s[k..];
  }

  /** In an ascending sequence, no document after position k is older than one
      before it. */
  lemma PrefixIsOldest(s: seq<Transaction>, k: nat)
    requires Ascending(s) && k <= |s|
    ensures forall x, y :: x in s[..k] && y in s[k..] ==> x.createdAt <= y.createdAt
  {
    forall x, y | x in s[..k] && y in s[k..]
      ensures x.createdAt <= y.createdAt
    {
      var i :| 0 <= i < k && s[..k][i] == x;
      var j :| 0 <= j < |s| - k && s[k..][j] == y;
      assert s[i] == x && s[k + j] == y;
    }
  }

  /** In a descending sequence, no document after position k is newer than one
      before it. */
  lemma PrefixIsNewest(s: seq<Transaction>, k: nat)
    requires Descending(s) && k <= |s|
    ensures forall x, y :: x in s[..k] && y in s[k..] ==> x.createdAt >= y.createdAt
  {
    forall x, y | x in s[..k] && y in s[k..]
      ensures x.createdAt >= y.createdAt
    {
      var i :| 0 <= i < k && s[..k][i] == x;
      var j :| 0 <= j < |s| - k && s[k..][j] == y;
      assert s[i] == x && s[k + j] == y;
    }
  }

  function Reverse(xs: seq<Transaction>): (r: seq<Transaction>)
    ensures |r| == |xs| && multiset(r) == multiset(xs)
    decreases |xs|
  {
    if xs == [] then []
    else
      assert xs == [xs[0]] + xs[1..];
      Reverse(xs[1..]) + [xs[0]]
  }

  /** Reversal puts the last document first. */
  lemma {:induction false} ReverseIndex(xs: seq<Transaction>)
    ensures forall i :: 0 <= i < |xs| ==> Reverse(xs)[i] == xs[|xs| - 1 - i]
    decreases |xs|
  {
    if xs != [] {
      ReverseIndex(xs[1..]);
    }
  }

  lemma ReverseDescending(xs: seq<Transaction>)
    requires Ascending(xs)
    ensures Descending(Reverse(xs))
  {
    ReverseIndex(xs);
    var r := Reverse(xs);
    forall i, j | 0 <= i < j < |r|
      ensures r[i].createdAt >= r[j].createdAt
    {
      assert r[i] == xs[|xs| - 1 - i] && r[j] == xs[|xs| - 1 - j];
    }
  }

  /** The number of documents `limit(n)` lets through: no bound for 0, otherwise
      at most the magnitude of n. */
  function LimitCount(n: int, available: nat): (k: nat)
    ensures k <= available
    ensures n == 0 ==> k == available
    ensures n != 0 ==> k == if available < Abs(n) then available else Abs(n)
  {
    if n == 0 then available else if available < Abs(n) then available else Abs(n)
  }

  function Abs(n: int): nat { if n < 0 then -n else n }

  /** `sort({ createdAt: 1 }).limit(n)`: the oldest documents, oldest first.
      What comes back is drawn from the documents given, as many as the limit
      lets through, and no document left out is older than one returned. */
  function OldestFirst(xs: seq<Transaction>, n: int): (r: seq<Transaction>)
    ensures Ascending(r) && |r| == LimitCount(n, |xs|)
    ensures multiset(r) <= multiset(xs) && forall x :: x in r ==> x in xs
    ensures forall x, y :: x in r && y in multiset(xs) - multiset(r) ==> x.createdAt <= y.createdAt
  {
    var s := SortByCreated(xs);
    var k := LimitCount(n, |xs|);
    SortAscending(xs);
    PrefixIsOldest(s, k);
    TakeDrop(s, k);
    MultisetMembers(s[..k], xs);
    s[..k]
  }

  /** `sort({ createdAt: -1 }).limit(n)`: the newest documents, newest first;
      no document left out is newer than one returned. */
  function NewestFirst(xs: seq<Transaction>, n: int): (r: seq<Transaction>)
    ensures Descending(r) && |r| == LimitCount(n, |xs|)
    ensures multiset(r) <= multiset(xs) && forall x :: x in r ==> x in xs
    ensures forall x, y :: x in r && y in multiset(xs) - multiset(r) ==> x.createdAt >= y.createdAt
  {
    var sorted := SortByCreated(xs);
    SortAscending(xs);
    ReverseDescending(sorted);
    var s := Reverse(sorted);
    var k := LimitCount(n, |xs|);
    PrefixIsNewest(s, k);
    TakeDrop(s, k);
    MultisetMembers(s[..k], xs);
    s[..k]
  }

  /** The first index holding the transaction id, if any. */
  function IndexOfTransactionId(xs: seq<Transaction>, id: string): (r: Option<nat>)
    ensures r.Some? ==> r.value < |xs| && xs[r.value].transactionId == id
    ensures r.Some? ==> forall j :: 0 <= j < r.value ==> xs[j].transactionId != id
    ensures r.None? <==> forall j :: 0 <= j < |xs| ==> xs[j].transactionId != id
    decreases |xs|
  {
    if xs == [] then None
    else if xs[0].transactionId == id then Some(0)
    else match IndexOfTransactionId(xs[1..], id)
      case None => None
      case Some(k) => Some(k + 1)
  }

  /** The first index holding the merchant reference, if any. */
  function IndexOfMerchantReference(xs: seq<Transaction>, ref: string): (r: Option<nat>)
    ensures r.Some? ==> r.value < |xs| && xs[r.value].merchantReference == ref
    ensures r.Some? ==> forall j :: 0 <= j < r.value ==> xs[j].merchantReference != ref
    ensures r.None? <==> forall j :: 0 <= j < |xs| ==> xs[j].merchantReference != ref
    decreases |xs|
  {
    if xs == [] then None
    else if xs[0].merchantReference == ref then Some(0)
    else match IndexOfMerchantReference(xs[1..], ref)
      case None => None
      case Some(k) => Some(k + 1)
  }

  /** `countDocuments({ merchantReference })` */
  function CountMerchantReference(xs: seq<Transaction>, ref: string): (n: nat)
    ensures n <= |xs|
    decreases |xs|
  {
    if xs == [] then 0
    else (if xs[0].merchantReference == ref then 1 else 0) + CountMerchantReference(xs[1..], ref)
  }

  /** The count is positive exactly when some document has the reference. */
  lemma {:induction false} CountPositive(xs: seq<Transaction>, ref: string)
    ensures CountMerchantReference(xs, ref) > 0 <==> exists i :: 0 <= i < |xs| && xs[i].merchantReference == ref
    decreases |xs|
  {
    if xs != [] {
      CountPositive(xs[1..], ref);
      if exists i :: 0 <= i < |xs| && xs[i].merchantReference == ref {
        var i :| 0 <= i < |xs| && xs[i].merchantReference == ref;
        if i > 0 { assert xs[1..][i - 1].merchantReference == ref; }
      }
      if exists i :: 0 <= i < |xs[1..]| && xs[1..][i].merchantReference == ref {
        var i :| 0 <= i < |xs[1..]| && xs[1..][i].merchantReference == ref;
        assert xs[i + 1].merchantReference == ref;
      }
    }
  }

  /** Why `create` rejects a document: schema validation runs first, then the
      unique indexes on transactionId and merchantReference. */
  function CreateError(doc: Transaction, xs: seq<Transaction>): (e: Option<Thrown>)
    ensures e.None? <==> RequiredFieldsPresent(doc)
                         && IndexOfTransactionId(xs, doc.transactionId).None?
                         && IndexOfMerchantReference(xs, doc.merchantReference).None?
  {
    if !RequiredFieldsPresent(doc) then Some(PlainError(VALIDATION_FAILED))
    else if IndexOfTransactionId(xs, doc.transactionId).Some?
         || IndexOfMerchantReference(xs, doc.merchantReference).Some? then Some(PlainError(DUPLICATE_KEY))
    else None
  }

  /** The exception an update of an unknown id raises. */
  function NotFound(transactionId: string): (e: PaymentException)
    ensures e.cls == TransactionNotFound && e.statusCode == 404
    ensures e.errorCode == Some("TRANSACTION_NOT_FOUND")
  {
    Raise(TransactionNotFound, Some("Transaction with ID " + transactionId + " not found"))
  }

  /** The collection invariant: the unique indexes hold and each document passed
      validation. Stored order says nothing about creation times: the clock may
      be stepped back, and the queries sort. */
  predicate WellFormed(xs: seq<Transaction>) {
    UniqueTransactionIds(xs) && UniqueMerchantReferences(xs)
    && (forall i :: 0 <= i < |xs| ==> RequiredFieldsPresent(xs[i]))
  }

  /** Appending an accepted document keeps the collection well formed. */
  lemma AppendWellFormed(xs: seq<Transaction>, doc: Transaction)
    requires WellFormed(xs) && CreateError(doc, xs).None?
    ensures WellFormed(xs + [doc])
  {
    var ys := xs + [doc];
    assert forall i :: 0 <= i < |xs| ==> ys[i] == xs[i];
  }

  /** Updating one document in place keeps the collection well formed. */
  lemma UpdateWellFormed(xs: seq<Transaction>, i: nat, u: UpdateTransactionDto, now: int)
    requires WellFormed(xs) && i < |xs|
    ensures WellFormed(xs[i := ApplyUpdate(xs[i], u, now)])
  {
    var ys := xs[i := ApplyUpdate(xs[i], u, now)];
    assert forall k :: 0 <= k < |xs| ==>
      ys[k].transactionId == xs[k].transactionId
      && ys[k].merchantReference == xs[k].merchantReference && ys[k].createdAt == xs[k].createdAt;
  }

  class TransactionRepository {
    var records: seq<Transaction>

    ghost predicate Valid()
      reads this
    {
      WellFormed(records)
    }

    constructor()
      ensures Valid() && records == []
    {
      records := [];
    }

    /** `create`: insert the new document, or report why the database refused it.
        `now` may be earlier than the creation time of a stored document. */
    method Create(dto: CreateTransactionDto, now: int) returns (r: Result<Transaction, Thrown>)
      requires Valid()
      modifies this
      ensures Valid()
      ensures var doc := NewDocument(dto, now);
        match CreateError(doc, old(records))
        case None => r == Success(doc) && records == old(records) + [doc]
        case Some(e) => r == Failure(e) && records == old(records)
    {
      var doc := NewDocument(dto, now);
      var err := CreateError(doc, records);
      if err.Some? {
        return Failure(err.value);
      }
      AppendWellFormed(records, doc);
      records := records + [doc];
      r := Success(doc);
    }

    /** `findByTransactionId` */
    function FindByTransactionId(transactionId: string): (r: Option<Transaction>)
      reads this
      ensures r.Some? <==> exists i :: 0 <= i < |records| && records[i].transactionId == transactionId
      ensures r.Some? ==> r.value in records && r.value.transactionId == transactionId
    {
      match IndexOfTransactionId(records, transactionId)
      case None => None
      case Some(i) => Some(records[i])
    }

    /** `findByMerchantRef` */
    function FindByMerchantRef(merchantReference: string): (r: Option<Transaction>)
      reads this
      ensures r.Some? <==> exists i :: 0 <= i < |records| && records[i].merchantReference == merchantReference
      ensures r.Some? ==> r.value in records && r.value.merchantReference == merchantReference
    {
      match IndexOfMerchantReference(records, merchantReference)
      case None => None
      case Some(i) => Some(records[i])
    }

    /** `exists`: whether a document with this merchant reference is stored. */
    function Exists(merchantReference: string): (b: bool)
      reads this
      ensures b <==> exists i :: 0 <= i < |records| && records[i].merchantReference == merchantReference
    {
      CountPositive(records, merchantReference);
      CountMerchantReference(records, merchantReference) > 0
    }

    /** `updateByTransactionId`: the one matching document gets the update and the
        new `updatedAt`; no other document changes. An unknown id raises
        TransactionNotFoundException and changes nothing. */
    method UpdateByTransactionId(transactionId: string, dto: UpdateTransactionDto, now: int)
      returns (r: Result<Transaction, PaymentException>)
      requires Valid()
      modifies this
      ensures Valid()
      ensures match IndexOfTransactionId(old(records), transactionId)
        case None => r == Failure(NotFound(transactionId)) && records == old(records)
        case Some(i) => records == old(records)[i := ApplyUpdate(old(records)[i], dto, now)]
                        && r == Success(records[i])
    {
      var index := IndexOfTransactionId(records, transactionId);
      if index.None? {
        return Failure(NotFound(transactionId));
      }
      var i := index.value;
      UpdateWellFormed(records, i, dto, now);
      records := records[i := ApplyUpdate(records[i], dto, now)];
      r := Success(records[i]);
    }

    /** `updateStatus`: an update of the status and the error message that also
        stamps `completedAt` for SUCCESS and FAILED. */
    method UpdateStatus(transactionId: string, status: TransactionStatus, errorMessage: Option<string>, now: int)
      returns (r: Result<Transaction, PaymentException>)
      requires Valid()
      modifies this
      ensures Valid()
      ensures match IndexOfTransactionId(old(records), transactionId)
        case None => r == Failure(NotFound(transactionId)) && records == old(records)
        case Some(i) => records == old(records)[i := ApplyUpdate(old(records)[i], StatusUpdate(status, errorMessage, now), now)]
                        && r == Success(records[i])
    {
      r := UpdateByTransactionId(transactionId, StatusUpdate(status, errorMessage, now), now);
    }

    /** `findPending`: the oldest PENDING documents, oldest first, at most
        `limit`. */
    function FindPending(limit: int := 100): (r: seq<Transaction>)
      reads this
      ensures forall x :: x in r ==> x in records && x.status == PENDING
      ensures Ascending(r)
      ensures |r| == LimitCount(limit, |Filter(records, (t: Transaction) => t.status == PENDING)|)
      ensures multiset(r) <= multiset(Filter(records, (t: Transaction) => t.status == PENDING))
      ensures forall x, y :: x in r && y in multiset(Filter(records, (t: Transaction) => t.status == PENDING)) - multiset(r)
                ==> x.createdAt <= y.createdAt
    {
      FilterMembers(records, (t: Transaction) => t.status == PENDING);
      OldestFirst(Filter(records, (t: Transaction) => t.status == PENDING), limit)
    }

    /** `findByStatus`: the newest documents with the status, newest first, at
        most `limit`. */
    function FindByStatus(status: TransactionStatus, limit: int := 100): (r: seq<Transaction>)
      reads this
      ensures forall x :: x in r ==> x in records && x.status == status
      ensures Descending(r)
      ensures |r| == LimitCount(limit, |Filter(records, (t: Transaction) => t.status == status)|)
      ensures multiset(r) <= multiset(Filter(records, (t: Transaction) => t.status == status))
      ensures forall x, y :: x in r && y in multiset(Filter(records, (t: Transaction) => t.status == status)) - multiset(r)
                ==> x.createdAt >= y.createdAt
    {
      FilterMembers(records, (t: Transaction) => t.status == status);
      NewestFirst(Filter(records, (t: Transaction) => t.status == status), limit)
    }

    /** `findByPhoneNumber`: the newest documents with the phone number, newest
        first, at most `limit` (50 by default). */
    function FindByPhoneNumber(phoneNumber: string, limit: int := 50): (r: seq<Transaction>)
      reads this
      ensures forall x :: x in r ==> x in records && x.phoneNumber == Some(phoneNumber)
      ensures Descending(r)
      ensures |r| == LimitCount(limit, |Filter(records, (t: Transaction) => t.phoneNumber == Some(phoneNumber))|)
      ensures multiset(r) <= multiset(Filter(records, (t: Transaction) => t.phoneNumber == Some(phoneNumber)))
      ensures forall x, y :: x in r && y in multiset(Filter(records, (t: Transaction) => t.phoneNumber == Some(phoneNumber))) - multiset(r)
                ==> x.createdAt >= y.createdAt
    {
      FilterMembers(records, (t: Transaction) => t.phoneNumber == Some(phoneNumber));
      NewestFirst(Filter(records, (t: Transaction) => t.phoneNumber == Some(phoneNumber)), limit)
    }
  }
}
