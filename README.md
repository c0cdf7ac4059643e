# SasaPay payments gateway, modelled in Dafny

This project models the decision logic of a NestJS service that forwards payments to the SasaPay provider:

- C2B collections, B2C disbursements, B2B transfers, balance queries and status queries.
- Each initiation is checked against the transaction store for a duplicate merchant reference, stored as PENDING and queued as a job keyed by its transaction id.
- A queue worker calls the provider, records the acknowledgment and decides between retry and an unrecoverable failure.
- Provider callbacks overwrite the stored status.

The model covers:

- **Wire mapping** (`RequestMapper`, `ResponseMapper`, `SasaPayProvider`, `HttpService.HandleError`): pure functions over the provider's request and response records.
- **Transaction store and lifecycle** (`TransactionSchema`, `TransactionRepository`, `PaymentQueue`, `PaymentsService`, `Worker`, `C2BProcessor`, `B2CProcessor`, `WebhooksService`):
  - The collection is a class whose `records: seq<Transaction>` is reassigned by `create` and the update methods.
  - The collection invariant keeps transaction ids and merchant references unique.
  - Queues are classes whose `jobs` sequence only grows and never repeats a job id.
- **Token cache** (`AuthService`, the interceptors of `HttpService`):
  - The cached token and the in-flight refresh are fields.
  - A refresh is two explicit steps, so single flight becomes a sequential property.
- **Request guards and caches** (`IdempotencyKeyGuard`, `IdempotencyInterceptor`, `IdempotencySchema`, `IdempotencyRepository`, `SignatureGuard`).
- **Error taxonomy** (`Exceptions`, `ExceptionFilter`):
  - The status code, error code and default message of every exception class.
  - The JSON error body the global filter sends.

`Wrappers` holds `Option` and `Result`. `JsText` holds the JavaScript string semantics the code relies on: truthiness, `||` and `??`, `startsWith`, `includes`, `toUpperCase`, `join` and decimal rendering.

These are passed in as parameters:

- Time is a parameter `now`, in milliseconds.
- A generated transaction id is a parameter.
- The provider's HTTP post is a function from endpoint and request to a response or a transport error.
- The HMAC of the signature guard, the date parser and the library UUID test are function parameters.
- Redis's answer to a queue add is a parameter: accepted, or the error it rejects with.

Amounts are integer minor units (cents).

Where the expected behaviour and the code disagree, the model follows the code:

- A callback overwrites the status of a transaction that has already settled. There is no terminal-state guard.
- `updateStatus` checks no transition.
- A provider timeout becomes status 408. That is in the 4xx band, so the worker treats it as unrecoverable and never retries it.
- A rejected acknowledgment is a plain error: it counts as 500 and is retried.
- The body of a payment exception has no `error` field, so the filter reports "Internal Server Error" as the error name even for a 409.
- A retry that sets PROCESSING after a failed attempt keeps the earlier `completedAt`.
- Nothing catches a failed queue add after `create`. The PENDING record stays stored with no job, so no worker processes it, and a resubmission of the same reference is refused as a duplicate.

One stated assumption: an update field left `undefined` is stripped by the database driver. It is modelled as `None`, which keeps the stored value.

## Model

| member | source | states |
|---|---|---|
| Exceptions.SubclassStatus | src/payments/exceptions/payment.exception.ts:23-51 | every exception subclass has a status in the 4xx band (402 InsufficientFunds, 404 TransactionNotFound, 408 PaymentTimeout, 409 DuplicateTransaction, 401 for the authentication and signature classes, 400 for the rest) |
| Exceptions.NewBasePaymentException | src/payments/exceptions/payment.exception.ts:3-20 | status defaults to 400 when none is given; message, error code and details are kept as given |
| Exceptions.Raise | src/payments/exceptions/payment.exception.ts:23-51 | a subclass exception carries its class's status and error code, no details, and its default message when none is passed |
| Exceptions.ErrorCodeDeterminesClass | src/payments/exceptions/idempotency.exception.ts:4-20 | the error codes of the classes are pairwise distinct, so an error code identifies its class |
| Exceptions.ResponseOf | src/payments/exceptions/payment.exception.ts:10-19 | the response body carries statusCode, message, errorCode and details, and no `error` field |
| TransactionSchema.ParseStatus | src/payments/database/schemas/transaction.schema.ts:10-16 | a stored status string parses only to the enum member it names |
| TransactionSchema.ParseType | src/payments/database/schemas/transaction.schema.ts:4-8 | a stored type string parses only to the enum member it names |
| TransactionSchema.EnumRoundTrip | src/payments/database/schemas/transaction.schema.ts:4-16 | every status and type survives writing and parsing its string value |
| PaymentDto.ValidC2B | src/payments/services/dto/payment.dto.ts:12-47 | a C2B request is accepted iff its phone number is non-empty and Kenyan, its amount positive, its merchant reference 1 to 50 characters and any description at most 200 |
| PaymentDto.ValidB2C | src/payments/services/dto/payment.dto.ts:49-84 | a B2C request is accepted iff its phone number is non-empty and Kenyan, its amount positive, its merchant reference 1 to 50 characters and any reason at most 200 |
| PaymentDto.ValidB2B | src/payments/services/dto/payment.dto.ts:86-127 | a B2B request is accepted iff its receiver merchant code, account type and network code are non-empty, its amount positive, its merchant reference 1 to 50 characters, any reason at most 200 and any account reference at most 100 |
| PaymentDto.KenyanPhoneLength | src/payments/services/dto/payment.dto.ts:15 | an accepted phone number has 9, 10, 12 or 13 characters |
| PaymentDto.SubscriberIsLocal | src/payments/services/dto/payment.dto.ts:15 | the subscriber part of an accepted number is bare local digits for the normaliser |
| PaymentDto.KenyanPhoneSubscriber | src/payments/services/dto/payment.dto.ts:15 | every accepted number normalises to '254' followed by its 9-digit subscriber part |
| PaymentDto.InternationalForm | src/payments/services/dto/payment.dto.ts:15 | '254' plus a subscriber number is twelve digits, is itself accepted, and normalising it changes nothing |
| PaymentDto.KenyanPhoneNormalizes | src/payments/services/dto/payment.dto.ts:15 | every accepted number normalises to 12 decimal digits beginning with '254' |
| RequestMapper.NewMapper | src/payments/providers/mappers/request.mapper.ts:57-64 | a missing or empty merchant code or callback URL setting becomes the empty string |
| RequestMapper.RemoveSeparators | src/payments/providers/mappers/request.mapper.ts:150 | the result has no whitespace, hyphen or parenthesis and is no longer than the input |
| RequestMapper.RemoveSeparatorsConcat | src/payments/providers/mappers/request.mapper.ts:150 | removing separators distributes over concatenation |
| RequestMapper.RemoveSeparatorsNoop | src/payments/providers/mappers/request.mapper.ts:150 | text without separators is unchanged |
| RequestMapper.RemoveSeparatorsIdempotent | src/payments/providers/mappers/request.mapper.ts:150 | removing separators twice is removing them once |
| RequestMapper.PrefixNoSeparators | src/payments/providers/mappers/request.mapper.ts:160-164 | prepending the country code adds no separator |
| RequestMapper.NormalizePhoneNumber | src/payments/providers/mappers/request.mapper.ts:149-165 | every normalised number begins with '254' and has no separators |
| RequestMapper.NormalizePhoneNumberCases | src/payments/providers/mappers/request.mapper.ts:152-164 | after separators and a leading '+' are removed: a leading '0' becomes '254'; a number already starting with '254' is kept; anything else gets '254' in front |
| RequestMapper.NormalizeIgnoresSeparators | src/payments/providers/mappers/request.mapper.ts:150 | separators are removed before any prefix handling, so they never affect the result |
| RequestMapper.NormalizeIdempotent | src/payments/providers/mappers/request.mapper.ts:149-165 | normalising a normalised number changes nothing |
| RequestMapper.NormalizeWithoutSeparators | src/payments/providers/mappers/request.mapper.ts:152-164 | on text without separators only the three prefix steps act |
| RequestMapper.DigitsNoSeparators | src/payments/providers/mappers/request.mapper.ts:150 | a string of decimal digits has no separators |
| RequestMapper.NormalizeBare | src/payments/providers/mappers/request.mapper.ts:160-164 | bare local digits get '254' in front |
| RequestMapper.NormalizeTrunk | src/payments/providers/mappers/request.mapper.ts:155-158 | a leading trunk '0' is replaced by '254' |
| RequestMapper.NormalizeInternational | src/payments/providers/mappers/request.mapper.ts:160-164 | a number in international form is kept |
| RequestMapper.NormalizePlus | src/payments/providers/mappers/request.mapper.ts:152-154 | the '+' of '+254…' is dropped |
| RequestMapper.NormalizeExamples | src/payments/providers/mappers/request.mapper.ts:149-165 | for every bare local number, its trunk-'0', '+254' and '254' spellings all normalise to the same '254' form |
| RequestMapper.TwoDigits | src/payments/providers/mappers/request.mapper.ts:167-169 | the cents part is exactly two decimal digits |
| RequestMapper.FormatMinorUnits | src/payments/providers/mappers/request.mapper.ts:167-169 | the rendering is digits with a point exactly three characters from the end |
| RequestMapper.FormatAmount | src/payments/providers/mappers/request.mapper.ts:167-169 | `toFixed(2)`: a negative amount is '-' followed by the rendering of its magnitude |
| RequestMapper.FormatAmountRoundTrip | src/payments/providers/mappers/request.mapper.ts:167-169 | a rendered amount reads back as the same number of minor units |
| RequestMapper.MapC2BRequest | src/payments/providers/mappers/request.mapper.ts:80-102 | the number is normalised; network code MPESA, description 'Payment', currency KES and the configured callback URL are the defaults for a missing or empty field |
| RequestMapper.MapB2CRequest | src/payments/providers/mappers/request.mapper.ts:104-115 | the receiver number is normalised; channel MPESA, reason 'Disbursement', currency KES and the configured callback URL are the defaults |
| RequestMapper.MapB2BRequest | src/payments/providers/mappers/request.mapper.ts:117-130 | the receiver merchant code, account fields and network code pass through unnormalised; reason defaults to 'B2B Transfer' |
| RequestMapper.MapBalanceRequest | src/payments/providers/mappers/request.mapper.ts:132-136 | the request uses the merchant code it is given |
| RequestMapper.MapTransactionStatusRequest | src/payments/providers/mappers/request.mapper.ts:138-147 | the callback is always the configured one, and merchantRequestId becomes MerchantTransactionReference |
| RequestMapper.EmptyFieldTakesDefault | src/payments/providers/mappers/request.mapper.ts:92-101 | an empty optional field maps exactly like a missing one |
| ResponseMapper.MapResultCodeToStatus | src/payments/providers/mappers/response.mapper.ts:180-218 | a missing or empty code gives PENDING, and only then; otherwise the tabled codes; an unlisted code gives SUCCESS iff it starts with '0', else FAILED; never PROCESSING |
| ResponseMapper.TabledResultCodes | src/payments/providers/mappers/response.mapper.ts:185-210 | the success, cancelled and failure codes of the switch map to their statuses |
| ResponseMapper.ResultDescription | src/payments/providers/mappers/response.mapper.ts:220-222 | the table's entry for a known code, 'Unknown error' otherwise |
| ResponseMapper.DescriptionsAgreeWithStatuses | src/payments/providers/mappers/response.mapper.ts:13-26 | a tabled code is described as 'Success' iff it maps to SUCCESS, and as cancelled iff it maps to CANCELLED |
| ResponseMapper.MapWebhookStatus | src/payments/providers/mappers/response.mapper.ts:224-254 | Paid decides first; then the case-insensitive status word; then the result code; PROCESSING iff the word is PENDING or PROCESSING and Paid is absent |
| ResponseMapper.StatusCaseInsensitive | src/payments/providers/mappers/response.mapper.ts:236-254 | any spelling of the status text maps as its upper-case form does, so two spellings with the same upper case map alike |
| ResponseMapper.LowerCaseStatusWords | src/payments/providers/mappers/response.mapper.ts:236-254 | every ASCII word written in lower case maps like its upper-case form, so the eight status words are recognised in lower case |
| ResponseMapper.AckMessage | src/payments/providers/mappers/response.mapper.ts:81-105 | the message falls back from ResponseDescription to detail to 'Unknown' and is never empty |
| ResponseMapper.MapC2BResponse | src/payments/providers/mappers/response.mapper.ts:81-89 | success iff `status === true`; the request ids and customer message are copied |
| ResponseMapper.MapTransferResponse | src/payments/providers/mappers/response.mapper.ts:91-105 | the B2C and B2B acknowledgments: success iff `status === true`, with no checkout id |
| ResponseMapper.MapBalanceResponse | src/payments/providers/mappers/response.mapper.ts:107-114 | currency defaults to KES and the message to 'Success' |
| ResponseMapper.MapTransactionStatusResponse | src/payments/providers/mappers/response.mapper.ts:116-141 | success iff `Paid === true`; the status is the mapped result code and never PROCESSING |
| ResponseMapper.AmountText | src/payments/providers/mappers/response.mapper.ts:151-157 | the amount text is the first non-empty of Amount, TransAmount and PaidAmount |
| ResponseMapper.MapWebhookPayload | src/payments/providers/mappers/response.mapper.ts:143-178 | every `??` takes its first present field, even an empty one; the status is MapWebhookStatus of the payload |
| ResponseMapper.BareCallbackIsPending | src/payments/providers/mappers/response.mapper.ts:160 | a callback with no Paid, no status word and no result code is PENDING |
| TransactionRepository.NewDocument | src/payments/database/repositories/transaction.repository.ts:37-45 | a created document is PENDING whatever the input, with currency defaulting to KES; the ids, type, amount, phone number, account number and name, description, request and metadata are those given; response, webhookData, errorMessage and completedAt are absent, and both timestamps are now |
| TransactionRepository.ApplyUpdate | src/payments/database/repositories/transaction.repository.ts:71-83 | each of status, response, webhookData, errorMessage and completedAt takes the update's value when it sets one and keeps the stored value otherwise; `updatedAt` becomes now; identity, phone number, account, description, request and metadata are kept |
| TransactionRepository.ApplyUpdateIdempotent | src/payments/database/repositories/transaction.repository.ts:71-83 | applying an update twice at the same time is applying it once |
| TransactionRepository.StatusUpdate | src/payments/database/repositories/transaction.repository.ts:86-102 | `completedAt` is sent iff the status is SUCCESS or FAILED |
| TransactionRepository.StatusUpdateCompletion | src/payments/database/repositories/transaction.repository.ts:97-99 | CANCELLED, PENDING and PROCESSING keep `completedAt` as it was; SUCCESS and FAILED stamp it now |
| TransactionRepository.Filter | src/payments/database/repositories/transaction.repository.ts:104-118 | a query returns no more documents than are stored |
| TransactionRepository.FilterMembers | src/payments/database/repositories/transaction.repository.ts:104-118 | a query returns exactly the stored documents that match |
| TransactionRepository.Insert | src/payments/database/repositories/transaction.repository.ts:107 | inserting into a sorted list adds exactly that document |
| TransactionRepository.InsertAscending | src/payments/database/repositories/transaction.repository.ts:107 | insertion keeps the list in creation order |
| TransactionRepository.SortByCreated | src/payments/database/repositories/transaction.repository.ts:107 | the sort is a permutation of the documents it is given |
| TransactionRepository.SortAscending | src/payments/database/repositories/transaction.repository.ts:107 | the sort puts the documents in creation order whatever their stored order |
| TransactionRepository.PrefixIsOldest | src/payments/database/repositories/transaction.repository.ts:107-108 | in an ascending list nothing after the cut is older than anything before it |
| TransactionRepository.PrefixIsNewest | src/payments/database/repositories/transaction.repository.ts:113-117 | in a descending list nothing after the cut is newer than anything before it |
| TransactionRepository.Reverse | src/payments/database/repositories/transaction.repository.ts:113-117 | reversal is a permutation |
| TransactionRepository.ReverseIndex | src/payments/database/repositories/transaction.repository.ts:113-117 | reversal puts the last document first |
| TransactionRepository.ReverseDescending | src/payments/database/repositories/transaction.repository.ts:113-117 | reversed creation order is newest first |
| TransactionRepository.OldestFirst | src/payments/database/repositories/transaction.repository.ts:107-108 | `sort({ createdAt: 1 }).limit(n)` returns a sub-multiset of its input, oldest first, as many as the limit lets through, and no document left out is older than one returned |
| TransactionRepository.NewestFirst | src/payments/database/repositories/transaction.repository.ts:113-117 | `sort({ createdAt: -1 }).limit(n)` returns a sub-multiset of its input, newest first, as many as the limit lets through, and no document left out is newer than one returned |
| TransactionRepository.LimitCount | src/payments/database/repositories/transaction.repository.ts:104-118 | `limit(0)` is no limit; otherwise at most the absolute value |
| TransactionRepository.IndexOfTransactionId | src/payments/database/repositories/transaction.repository.ts:51-53 | the first position holding the id; none iff no document has it |
| TransactionRepository.IndexOfMerchantReference | src/payments/database/repositories/transaction.repository.ts:55-57 | the first position holding the reference; none iff no document has it |
| TransactionRepository.CountMerchantReference | src/payments/database/repositories/transaction.repository.ts:120-123 | the count is at most the number of documents |
| TransactionRepository.CountPositive | src/payments/database/repositories/transaction.repository.ts:120-123 | the count is positive iff some document has the reference |
| TransactionRepository.CreateError | src/payments/database/schemas/transaction.schema.ts:20-57 | validation runs before the unique indexes; a document is accepted iff it is valid and neither its id nor its reference is stored |
| TransactionRepository.NotFound | src/payments/database/repositories/transaction.repository.ts:79-81 | an unknown id raises a 404 TRANSACTION_NOT_FOUND |
| TransactionRepository.AppendWellFormed | src/payments/database/schemas/transaction.schema.ts:20-24 | adding an accepted document keeps ids and references unique, whatever its creation time |
| TransactionRepository.UpdateWellFormed | src/payments/database/repositories/transaction.repository.ts:71-83 | an update in place keeps the collection well formed |
| TransactionRepository.TransactionRepository.Create | src/payments/database/repositories/transaction.repository.ts:37-45 | the new document is appended, or the collection is unchanged and the database error is returned; any clock value is accepted |
| TransactionRepository.TransactionRepository.FindByTransactionId | src/payments/database/repositories/transaction.repository.ts:51-53 | a result exists iff a stored document has the id, and it is that document |
| TransactionRepository.TransactionRepository.FindByMerchantRef | src/payments/database/repositories/transaction.repository.ts:55-57 | a result exists iff a stored document has the reference, and it is that document |
| TransactionRepository.TransactionRepository.Exists | src/payments/database/repositories/transaction.repository.ts:120-123 | true iff some stored document has the merchant reference |
| TransactionRepository.TransactionRepository.UpdateByTransactionId | src/payments/database/repositories/transaction.repository.ts:71-84 | an unknown id raises TransactionNotFound and changes nothing; otherwise only the matching document is updated |
| TransactionRepository.TransactionRepository.UpdateStatus | src/payments/database/repositories/transaction.repository.ts:86-102 | the status update is applied to the one matching document, or TransactionNotFound is raised |
| TransactionRepository.TransactionRepository.FindPending | src/payments/database/repositories/transaction.repository.ts:104-110 | the oldest PENDING documents, oldest first, as many as `limit` (100 by default) lets through; no PENDING document left out is older than one returned; the result is a sub-multiset of the PENDING documents, so none is repeated |
| TransactionRepository.TransactionRepository.FindByStatus | src/payments/database/repositories/transaction.repository.ts:112-114 | the newest documents with the status, newest first, as many as `limit` lets through; no match left out is newer than one returned; the result is a sub-multiset of the matches, so none is repeated |
| TransactionRepository.TransactionRepository.FindByPhoneNumber | src/payments/database/repositories/transaction.repository.ts:116-118 | the newest documents with the number, newest first, as many as `limit` (50 by default) lets through; no match left out is newer than one returned; the result is a sub-multiset of the matches, so none is repeated |
| PaymentQueue.JobQueue.Add | src/payments/services/payments.service.ts:80-82 | a refused add returns Redis's error and adds nothing; otherwise a new job id appends the job and a job id already present adds nothing |
| PaymentsService.Duplicate | src/payments/services/payments.service.ts:47-51 | a reference already stored raises 409 DUPLICATE_TRANSACTION |
| PaymentsService.C2BRecordAndJob | src/payments/services/payments.service.ts:53-82 | the record has type C2B and the request's fields; the job's accountReference is the merchant reference; currency defaults to KES in both |
| PaymentsService.B2CRecordAndJob | src/payments/services/payments.service.ts:112-140 | the record has type B2C and keeps the reason as its description |
| PaymentsService.B2BRecordAndJob | src/payments/services/payments.service.ts:171-201 | the record stores receiverMerchantCode as accountNumber; the job has accountReference only when it is truthy |
| PaymentsService.JobsStoredAppend | src/payments/services/payments.service.ts:53-82 | inserting a record keeps every queued job pointing at a stored record |
| PaymentsService.RefusedAddOrphans | src/payments/services/payments.service.ts:55-82 | after a refused add, the PENDING record is stored last under its id, no job of the queue carries that id, and its reference counts as stored, so a resubmission is a 409 duplicate |
| PaymentsService.FreshIdHasNoJob | src/payments/services/payments.service.ts:80-82 | an id that is not stored has no job yet |
| PaymentsService.JobsStoredAdd | src/payments/services/payments.service.ts:80-82 | queueing the job of the record just stored keeps every job pointing at a stored record |
| PaymentsService.PaymentsService.constructor | src/payments/services/payments.service.ts:26-36 | the service can be built over queues that already hold jobs, as long as every job stands for a stored transaction |
| PaymentsService.PaymentsService.InitiateC2BPayment | src/payments/services/payments.service.ts:38-95 | a duplicate or a create failure changes nothing; otherwise exactly one PENDING C2B record, then one job keyed by its id with the reply carrying both ids, or, when Redis refuses the add, its error with the record kept and no job |
| PaymentsService.PaymentsService.InitiateB2CPayment | src/payments/services/payments.service.ts:97-153 | the same steps on the B2C queue, a refused add included |
| PaymentsService.PaymentsService.InitiateB2BTransfer | src/payments/services/payments.service.ts:155-214 | the same steps on the B2B queue, a refused add included |
| PaymentsService.GetBalance | src/payments/services/payments.service.ts:233-244 | success, balance and message pass through; currency defaults to KES; a provider failure propagates |
| Worker.FailureStatus | src/payments/queue/processors/c2b.processor.ts:102-112 | a payment exception's status, else 500 |
| Worker.Classify | src/payments/queue/processors/c2b.processor.ts:108-112 | unrecoverable iff a payment exception with status in [400, 500); otherwise the error is rethrown unchanged |
| Worker.SubclassesAreUnrecoverable | src/payments/exceptions/authentication.exception.ts:4-20 | every exception subclass, the authentication ones included, stops the retries |
| Worker.AckUpdate | src/payments/queue/processors/c2b.processor.ts:59-69 | the acknowledgment is stored with PROCESSING on success, or FAILED with its message |
| Worker.Write | src/payments/database/repositories/transaction.repository.ts:71-84 | `updateByTransactionId` on the collection: only the matching document changes |
| Worker.WriteKeepsIdentities | src/payments/database/repositories/transaction.repository.ts:71-84 | a write keeps every id, reference and creation time |
| Worker.IdentitiesKeepIndex | src/payments/database/repositories/transaction.repository.ts:51-53 | collections with the same identities locate every id at the same position |
| Worker.Attempt | src/payments/queue/processors/c2b.processor.ts:44-117 | one run of `process`: an unknown id rethrows TransactionNotFound with nothing changed; otherwise the record goes PROCESSING, the provider answer is written, and a rejection or provider error goes through the catch block's FAILED write and retry decision |
| Worker.AttemptFrame | src/payments/queue/processors/c2b.processor.ts:44-117 | an attempt changes at most the job's own record and no identity |
| Worker.AttemptUnknownTransaction | src/payments/queue/processors/c2b.processor.ts:48-49 | an attempt on an unstored transaction changes nothing and rethrows TransactionNotFound |
| Worker.AttemptAccepted | src/payments/queue/processors/c2b.processor.ts:59-74 | an accepted acknowledgment completes the job with the record PROCESSING and the response stored |
| Worker.AttemptRejected | src/payments/queue/processors/c2b.processor.ts:66-112 | a rejected acknowledgment ends FAILED and completed, and is retried as a 500 |
| Worker.AttemptProviderError | src/payments/queue/processors/c2b.processor.ts:100-112 | a provider error sets FAILED with its message, and the retry decision is Classify of it |
| C2BProcessor.ProviderRequest | src/payments/queue/processors/c2b.processor.ts:49-57 | the provider gets the job's phone number, amount, account reference, description, callback, network code and currency |
| C2BProcessor.AckOf | src/payments/queue/processors/c2b.processor.ts:59-67 | the stored response keeps both request ids, the customer message and the message |
| C2BProcessor.C2BProcessor.Process | src/payments/queue/processors/c2b.processor.ts:24-117 | the new collection and outcome are those of Worker.Attempt on the old collection |
| C2BProcessor.C2BProcessor.RunJob | src/payments/queue/payment-queue.module.ts:19 | at most `attempts` attempts; every attempt but the last was retried; the last ended or used up the attempts; attempt k's collection and outcome are Worker.Attempt on the collection attempt k-1 left, with the k-th provider answer, and the final collection is the last one of that trace |
| B2CProcessor.ProviderRequest | src/payments/queue/processors/b2c.processor.ts:50-58 | the provider gets the job's phone number, amount, reference, reason, callback, channel and currency |
| B2CProcessor.AckOf | src/payments/queue/processors/b2c.processor.ts:60-67 | the stored response holds only merchantRequestId and message |
| Worker.AckResult | src/payments/queue/processors/c2b.processor.ts:49-67 | a provider failure passes through; an answer becomes the acknowledgment the processor keeps of it |
| B2CProcessor.B2CProcessor.Process | src/payments/queue/processors/b2c.processor.ts:24-115 | the new collection and outcome are those of Worker.Attempt on the old collection |
| WebhooksService.CallbackReference | src/payments/webhooks/webhooks.service.ts:20 | MerchantRequestID if present, else MerchantReference |
| WebhooksService.WebhookUpdate | src/payments/webhooks/webhooks.service.ts:67-79 | the update a matched callback sends: the mapped status, the raw payload as webhookData, no response, completedAt now only for SUCCESS or FAILED, the result description as errorMessage only for FAILED |
| WebhooksService.WebhookUpdateEffect | src/payments/webhooks/webhooks.service.ts:67-79 | the record takes the mapped status and the raw payload; completedAt is stamped only for SUCCESS or FAILED; errorMessage is set only for FAILED |
| WebhooksService.NoTerminalStateGuard | src/payments/webhooks/webhooks.service.ts:67 | a settled record is overwritten: Paid false makes it FAILED and a PENDING word reopens it |
| WebhooksService.WebhooksService.ProcessCallback | src/payments/webhooks/webhooks.service.ts:19-108 | always success; a missing or unknown reference changes nothing; a known one updates only its record |
| WebhooksService.UniqueIdsLocate | src/payments/webhooks/webhooks.service.ts:49-67 | in a well-formed collection the record found by reference is the one updated by its transaction id |
| AuthService.Usable | src/payments/providers/auth/auth.service.ts:75-84 | a cached token is usable iff it has an expiry and `now < expiresAt - 300000` |
| AuthService.FinishWith | src/payments/providers/auth/auth.service.ts:99-169 | success iff a response with a truthy access token; success caches that token; every failure clears the cache |
| AuthService.ReceivedTokenLifetime | src/payments/providers/auth/auth.service.ts:129-135 | the token is cached with `expiresAt = now + expires_in*1000` and type defaulting to Bearer, and is usable until five minutes before expiry |
| AuthService.RefreshErrors | src/payments/providers/auth/auth.service.ts:140-168 | 401 gives InvalidCredentials; another status, a network error or a missing token gives Authentication |
| AuthService.TokenWithoutLifetimeNeverUsable | src/payments/providers/auth/auth.service.ts:132 | an answer without expires_in is cached but never usable |
| AuthService.AuthService.constructor | src/payments/providers/auth/auth.service.ts:42-51 | credentials read with `\|\| ''`; empty cache and no refresh in flight |
| AuthService.AuthService.IsTokenValid | src/payments/providers/auth/auth.service.ts:75-84 | valid only when a token is cached |
| AuthService.AuthService.IsAuthenticated | src/payments/providers/auth/auth.service.ts:177-179 | the same as token validity |
| AuthService.AuthService.GetAccessToken | src/payments/providers/auth/auth.service.ts:53-92 | a valid token is returned with no refresh; a refresh in flight is joined; missing credentials raise InvalidCredentials before any request; otherwise exactly one request starts |
| AuthService.AuthService.FinishRefresh | src/payments/providers/auth/auth.service.ts:65-72 | the in-flight slot is cleared whatever the outcome, and the cache becomes FinishWith's |
| AuthService.AuthService.ClearCache | src/payments/providers/auth/auth.service.ts:172-175 | afterwards no token is authenticated at any time |
| AuthService.AuthService.GenerateToken | src/payments/providers/auth/auth.service.ts:181-206 | a failure propagates; an empty cache raises 'Failed to generate token'; otherwise the cached token's accessToken, tokenType, expiresIn and generatedAt |
| AuthService.AuthService.Stampede | src/payments/providers/auth/auth.service.ts:59-62 | callers arriving together send at most one credential request and all get the same answer |
| HttpService.FullUrl | src/payments/providers/http/http.service.ts:104 | a URL starting with 'http' is used as given, otherwise it is prefixed with the base URL |
| HttpService.FullUrlIdempotent | src/payments/providers/http/http.service.ts:104 | with an absolute base, resolving a resolved URL changes nothing |
| HttpService.RequestTimeout | src/payments/providers/http/http.service.ts:105 | the configured timeout, else 30000; zero also gives 30000 |
| HttpService.Field | src/payments/providers/http/http.service.ts:181-187 | a field of the error data, present iff the data has the key, and then the value under the key |
| HttpService.ResponseMessage | src/payments/providers/http/http.service.ts:181-187 | the first truthy of data.message, data.detail and data.error (an empty string is skipped, an array of strings is kept as an array), else the error's own message |
| HttpService.ErrorName | src/payments/providers/http/http.service.ts:202 | the string form of a truthy data.error (an array joined with ','), else 'External API Error' |
| Exceptions.ExceptionText | src/payments/providers/http/http.service.ts:198-205 | the message of an HttpException built from an object body: its `message` when a string, else 'Http Exception' |
| HttpService.HandleError | src/payments/providers/http/http.service.ts:174-253 | an answered error keeps its status, takes ResponseMessage as body message, ErrorName as error name and the data as details; the exception's text is ExceptionText of the body message; otherwise a timeout gives 408, checked before ECONNREFUSED's 503; any other network error gives 502 |
| HttpService.UnansweredStatuses | src/payments/providers/http/http.service.ts:209-252 | an unanswered error is one of 408, 503 and 502, and 408 iff it is a timeout |
| HttpService.TimeoutBeforeRefused | src/payments/providers/http/http.service.ts:209-222 | ECONNABORTED is a 408 whatever the message says |
| HttpService.RequestResult | src/payments/providers/http/http.service.ts:155-172 | a success passes through; a failure becomes HandleError's exception |
| HttpService.BearerCredentials | src/payments/providers/http/http.service.ts:48 | the header is 'Bearer ' followed by the token |
| HttpService.AuthorizeRequest | src/payments/providers/http/http.service.ts:38-59 | token-endpoint, skipAuth and pre-authorised requests pass unchanged; otherwise 'Bearer ' + token is set, or the request awaits the refresh or fails with its error |
| HttpService.OnResponseError | src/payments/providers/http/http.service.ts:68-77 | a 401 clears the token cache; the error propagates unchanged either way |
| SasaPayProvider.MaskPhoneNumber | src/payments/providers/sasapay.provider.ts:227-232 | '****' for a number shorter than 4, else '****' and the last four characters |
| SasaPayProvider.MaskRevealsOnlyLastFour | src/payments/providers/sasapay.provider.ts:227-232 | numbers with the same last four mask alike; masking is idempotent |
| SasaPayProvider.HttpErrorMessage | src/payments/providers/sasapay.provider.ts:240-255 | response.message if present (an array joined with ','), else the error's message |
| SasaPayProvider.HandleProviderError | src/payments/providers/sasapay.provider.ts:234-268 | a payment exception is rethrown unchanged; an HTTP one keeps its status with '<operation> failed: <msg>'; anything else defaults to 400 |
| SasaPayProvider.Complete | src/payments/providers/sasapay.provider.ts:55-93 | an answer is mapped; a transport failure becomes HandleProviderError of HandleError |
| SasaPayProvider.ProviderFailureShape | src/payments/providers/sasapay.provider.ts:240-261 | a transport failure reaches the worker with HandleError's status and '<operation> failed: ' followed by the body message (an array joined with ',') |
| SasaPayProvider.ArrayMessageJoined | src/payments/providers/sasapay.provider.ts:253-255 | an answered error whose `message` is an array of strings reaches the worker as '<operation> failed: ' and the elements joined with ',' |
| SasaPayProvider.TimeoutIsUnrecoverable | src/payments/providers/http/http.service.ts:209-219 | a provider timeout becomes 408 and is never retried |
| SasaPayProvider.UnreachableIsRetried | src/payments/providers/http/http.service.ts:222-252 | a refused connection or network failure is retried |
| SasaPayProvider.AnsweredStatusDecides | src/payments/providers/http/http.service.ts:177-206 | an answered 4xx is unrecoverable |
| SasaPayProvider.NonHttpErrorIsUnrecoverable | src/payments/providers/sasapay.provider.ts:264-267 | a non-HTTP error becomes 400 and is never retried |
| SasaPayProvider.RequestC2BPayment | src/payments/providers/sasapay.provider.ts:45-97 | the mapped C2B request is posted to its endpoint and the answer mapped |
| SasaPayProvider.SendB2CPayment | src/payments/providers/sasapay.provider.ts:99-131 | the mapped B2C request is posted to its endpoint and the answer mapped |
| SasaPayProvider.TransferB2B | src/payments/providers/sasapay.provider.ts:133-165 | the mapped B2B request is posted to its endpoint and the answer mapped |
| SasaPayProvider.GetBalance | src/payments/providers/sasapay.provider.ts:167-189 | the balance request is posted to its endpoint and the answer mapped |
| SasaPayProvider.GetTransactionStatus | src/payments/providers/sasapay.provider.ts:191-225 | the status request is posted to its endpoint and the answer mapped |
| SasaPayProvider.C2BFailuresArePaymentExceptions | src/payments/providers/sasapay.provider.ts:94-96 | every failure of the C2B request is a payment exception |
| SignatureGuard.NewGuard | src/payments/webhooks/guards/signature.guard.ts:21 | a missing or empty secret becomes the empty string |
| SignatureGuard.SignatureHeader | src/payments/webhooks/guards/signature.guard.ts:27-30 | x-sasapay-signature, else x-signature, else signature |
| SignatureGuard.VerifySignature | src/payments/webhooks/guards/signature.guard.ts:54-70 | with no secret every signature verifies; otherwise it verifies iff it equals the HMAC digest of the payload under the secret |
| SignatureGuard.IsTimestampValid | src/payments/webhooks/guards/signature.guard.ts:72-79 | valid iff the timestamp stands for a time (a date that does not parse never does) and its age `now - t` lies in [0, 300000) |
| SignatureGuard.LengthMismatchFails | src/payments/webhooks/guards/signature.guard.ts:60-69 | with a secret, a signature of the wrong length is refused |
| SignatureGuard.BodyTimestamp | src/payments/webhooks/guards/signature.guard.ts:44 | `timestamp ?? Timestamp` |
| SignatureGuard.CanActivate | src/payments/webhooks/guards/signature.guard.ts:24-52 | accepted iff a signature is present and verifies and any truthy timestamp is fresh; missing, then invalid, then replay, in that order |
| SignatureGuard.NoSecretAcceptsAnySignature | src/payments/webhooks/guards/signature.guard.ts:55-58 | with no secret, any present signature and fresh or absent timestamp is accepted |
| SignatureGuard.StaleOrFutureTimestampIsReplay | src/payments/webhooks/guards/signature.guard.ts:72-79 | a timestamp outside `0 <= now - t < 300000`, future ones included, is a 400 replay |
| SignatureGuard.SignatureCheckedBeforeTimestamp | src/payments/webhooks/guards/signature.guard.ts:32-41 | a bad signature is a 401 whatever the timestamp |
| SignatureGuard.ZeroTimestampShadows | src/payments/webhooks/guards/signature.guard.ts:37-48 | a zero timestamp is falsy and not checked |
| JsText.LowerAscii | src/common/guards/idempotency-key.guard.ts:24 | lower-cases exactly the ASCII capitals |
| IdempotencyKeyGuard.IsUuidV4 | src/common/guards/idempotency-key.guard.ts:10 | 36 characters, hyphens at 8, 13, 18 and 23, hex digits of either case elsewhere, '4' at 14 and one of 8, 9, a, b (either case) at 19 |
| IdempotencyKeyGuard.HeaderName | src/common/guards/idempotency-key.guard.ts:22-23 | the configured name, else 'Idempotency-Key' |
| IdempotencyKeyGuard.LookupNameIsLowerCase | src/common/guards/idempotency-key.guard.ts:24 | the name looked up has no capitals |
| IdempotencyKeyGuard.ValidateKey | src/common/guards/idempotency-key.guard.ts:26-38 | accepted iff present, a UUID and version 4; missing, then not a UUID, then not v4, with their messages |
| IdempotencyKeyGuard.AcceptsExactlyV4 | src/common/guards/idempotency-key.guard.ts:10 | exactly the 8-4-4-4-12 hex strings with version '4' and variant 8, 9, a or b pass, and every refusal is a 400 |
| IdempotencyKeyGuard.CaseInsensitive | src/common/guards/idempotency-key.guard.ts:10 | upper-case hex digits are accepted like lower-case ones |
| IdempotencyKeyGuard.GuardedRequest.Header | src/common/guards/idempotency-key.guard.ts:24 | the header value, present iff the header is |
| IdempotencyKeyGuard.CanActivate | src/common/guards/idempotency-key.guard.ts:20-43 | on acceptance the key is attached and true is returned; a refusal leaves the request as it was |
| IdempotencyRepository.NewRecord | src/payments/database/repositories/idempotency.repository.ts:23-37 | fields stored as given, expiring `ttl` seconds after creation |
| IdempotencyRepository.ExpiryWindow | src/payments/database/schemas/idempotency.schema.ts:27-33 | a new record is expired exactly from `now + ttl*1000` on |
| IdempotencyRepository.IndexOfKey | src/payments/database/repositories/idempotency.repository.ts:40-42 | the first position holding the key; none iff no record has it |
| IdempotencyRepository.CreateError | src/payments/database/schemas/idempotency.schema.ts:6-22 | accepted iff the required fields are present and the key is new |
| IdempotencyRepository.Unexpired | src/payments/database/repositories/idempotency.repository.ts:49-54 | only unexpired records remain |
| IdempotencyRepository.CountExpired | src/payments/database/repositories/idempotency.repository.ts:49-54 | the count is bounded by the number of records |
| IdempotencyRepository.UnexpiredExact | src/payments/database/repositories/idempotency.repository.ts:49-54 | every unexpired record stays, and exactly the expired records are removed |
| IdempotencyRepository.UnexpiredWellFormed | src/payments/database/schemas/idempotency.schema.ts:6-7 | deleting expired records keeps keys unique |
| IdempotencyRepository.RemoveAt | src/payments/database/repositories/idempotency.repository.ts:56-59 | removing one record shortens the collection by one |
| IdempotencyRepository.RemoveAtWellFormed | src/payments/database/repositories/idempotency.repository.ts:56-59 | removal keeps keys unique and leaves no record with the removed key |
| IdempotencyRepository.CreateThenFind | src/payments/database/repositories/idempotency.repository.ts:23-42 | a created key is found, and creating it again is a duplicate-key error |
| IdempotencyRepository.IndexOfLast | src/payments/database/repositories/idempotency.repository.ts:40-42 | a new key appended is found at the end |
| IdempotencyRepository.IdempotencyRepository.Create | src/payments/database/repositories/idempotency.repository.ts:23-38 | the record is appended, or the collection is unchanged and the error returned |
| IdempotencyRepository.IdempotencyRepository.FindByKey | src/payments/database/repositories/idempotency.repository.ts:40-42 | present iff a record has the key, and it is that record |
| IdempotencyRepository.IdempotencyRepository.Exists | src/payments/database/repositories/idempotency.repository.ts:44-47 | true iff a record with the key is stored |
| IdempotencyRepository.IdempotencyRepository.DeleteExpired | src/payments/database/repositories/idempotency.repository.ts:49-54 | removes exactly the records with `expiresAt <= now` and returns how many |
| IdempotencyRepository.IdempotencyRepository.DeleteByKey | src/payments/database/repositories/idempotency.repository.ts:56-59 | true iff a record was removed; every other record stays |
| IdempotencyInterceptor.CacheKey | src/common/interceptors/idempotency.interceptor.ts:23-52 | 'idempotency:' followed by the key |
| IdempotencyInterceptor.CacheKeyInjective | src/common/interceptors/idempotency.interceptor.ts:52 | distinct keys never share a cache entry |
| IdempotencyInterceptor.Ttl | src/common/interceptors/idempotency.interceptor.ts:70 | the configured TTL, else 86400 seconds |
| IdempotencyInterceptor.Lookup | src/common/interceptors/idempotency.interceptor.ts:54-55 | an entry is seen iff present and not yet expired |
| IdempotencyInterceptor.Store | src/common/interceptors/idempotency.interceptor.ts:73-77 | the entry replaces any earlier one for the key and lives `ttl` seconds; other keys are untouched |
| IdempotencyInterceptor.StoreThenLookup | src/common/interceptors/idempotency.interceptor.ts:63-80 | a stored answer is replayed unchanged while it lives, and other keys are unaffected |
| IdempotencyInterceptor.IdempotencyInterceptor.Intercept | src/common/interceptors/idempotency.interceptor.ts:33-92 | no key: the handler runs and the cache is untouched; a hit replays without running the handler; a miss runs it and stores a success unless the write fails |
| IdempotencyInterceptor.IdempotencyInterceptor.RepeatRequest | src/common/interceptors/idempotency.interceptor.ts:54-80 | a repeat within the TTL replays the first answer without running the handler |
| ExceptionFilter.StatusOf | src/common/filters/http-exception.filter.ts:22-33 | `getStatus()` of an HttpException, 500 for anything else |
| ExceptionFilter.ResponseBody | src/common/filters/http-exception.filter.ts:28-33 | only HttpExceptions have a response body |
| ExceptionFilter.BodyText | src/common/filters/http-exception.filter.ts:35-37 | an array message joined with ', ', a non-empty text as is, else the default |
| ExceptionFilter.ErrorResponse | src/common/filters/http-exception.filter.ts:17-55 | non-Error gives the defaults; a plain Error its message; a string response becomes the message; errorCode and details only when present |
| ExceptionFilter.PaymentExceptionBody | src/payments/exceptions/payment.exception.ts:10-19 | a payment exception keeps its status, message and error code, and its error name is 'Internal Server Error' |
| ExceptionFilter.TransportErrorBody | src/payments/providers/http/http.service.ts:209-252 | an HTTP failure keeps its status, message and error name to the client |
| ExceptionFilter.Catch | src/common/filters/http-exception.filter.ts:80 | the status sent equals the body's statusCode |
| JsText.ToUpperCaseConcat | src/payments/providers/mappers/response.mapper.ts:236 | upper-casing distributes over concatenation |
| JsText.ToUpperCaseFixed | src/payments/providers/mappers/response.mapper.ts:236 | text whose characters upper-case to themselves is unchanged |
| JsText.UpperCharUpper | src/payments/providers/mappers/response.mapper.ts:236 | the upper-case form of a character is already upper case |
| JsText.ToUpperCaseIdempotent | src/payments/providers/mappers/response.mapper.ts:236 | upper-casing twice is upper-casing once |
| JsText.ToUpperCaseOfLower | src/payments/providers/mappers/response.mapper.ts:236 | upper-casing the lower-case form of ASCII capitals gives them back |
| JsText.NatToStringRoundTrip | src/payments/providers/mappers/request.mapper.ts:167-169 | the decimal rendering of the whole units reads back as the same number |

## Left out

- Concurrency: the single flight of the token refresh rests on Promise interleaving. It is modelled as two explicit steps, beginning and finishing a refresh, and `Stampede` states the property sequentially. The fire-and-forget race of the idempotency cache write is not modelled.
- HMAC-SHA256 and `timingSafeEqual` are a function parameter. `timingSafeEqual` is taken to refuse, not to throw, when the lengths differ.
- Parsing date strings is a parameter returning `None` for NaN. Timestamps are integer milliseconds.
- Floating point: amounts are integer minor units. `parseFloat` of callback amounts is not modelled; the amount text is kept.
- Strings are sequences of Unicode scalar values. UTF-16 lengths of astral characters and non-ASCII case conversion of header names are not modelled.
- The B2B processor is not part of this model.
- BullMQ's exponential backoff and job removal are library behaviour. `C2BProcessor.RunJob` only re-invokes `process` up to the attempt count.
- Documents created at the same millisecond come back from the sorted queries in stored order (the insertion sort is stable). MongoDB leaves the order of such ties unspecified, so the contracts of the finders constrain only the creation times.
- Mongo, Redis, axios and rxjs are in-memory sequences, maps and outcome parameters. Their error messages are stand-in constants.
- A database failure during a callback is the parameter `storeFails`. A refused cache write is the parameter `writeFails`. A refused queue add is the parameter `queueRefusal` of the initiations; its error is propagated unchanged.
- Logging, tracing, routing, module wiring and environment configuration carry no behaviour and are not modelled.
- The internal-key check of the webhooks controller is not modelled.
- `uuidv4()` is a transaction id passed in. The general `validate` of the uuid library is the parameter `isUuid`.
- HttpService.AuthorizeRequest: when the token request fails, the interceptor's exception would reach `handleError` without an HTTP status. It would then surface as a 400 from the provider. This path is not modelled; the interceptor's own error is returned instead.
- An rxjs `TimeoutError` has the message 'Timeout has occurred' with a capital T, so `includes('timeout')` misses it and the error becomes 502. The transport error's code and message are taken as given.
- ResponseMapper.ResultDescription: a code that names an inherited property of a JavaScript object (such as `constructor`) is not modelled. Only the table's own keys count.
- IdempotencyInterceptor.Intercept: the cached body is the serialised reply. The JSON round trip is taken to be exact.
- HttpService.HandleError: a body field is a string or an array of strings. An array `error` is kept as its string form, the elements joined with ','. Body fields that are numbers or nested objects are not modelled.
- The GET, PUT and DELETE wrappers of HttpService differ from `post` only by the verb and are not modelled separately.
- `getTransactionStatus` of PaymentsService is a pass-through to the provider and is modelled only through SasaPayProvider.GetTransactionStatus.
