/** SignatureGuard: a provider callback is let through only with a signature
    header that matches the HMAC (RFC 2104) of its body under the webhook secret,
    and, when it carries a timestamp, only if that timestamp is at most five
    minutes old and not in the future. The digest is a parameter. */
module SignatureGuard {
  import opened Wrappers
  import opened JsText
  import opened Exceptions
  import opened SasaPayDto

  const MAX_AGE_MS := 5 * 60 * 1000

  const MISSING_SIGNATURE := "Missing webhook signature"
  const INVALID_SIGNATURE := "Invalid webhook signature"
  const TIMESTAMP_TOO_OLD := "Webhook timestamp is too old"

  /** A callback request as the guard sees it: the three signature headers, the
      serialised body (`JSON.stringify(request.body)`) and the body's `timestamp`
      and `Timestamp` fields. */
  datatype CallbackRequest = CallbackRequest(
    sasapaySignature: Option<string>,   // x-sasapay-signature
    xSignature: Option<string>,         // x-signature
    signature: Option<string>,          // signature
    payload: string,
    timestamp: Option<RawTimestamp>,
    Timestamp: Option<RawTimestamp>)

  /** The guard's configuration: the secret (`|| ''`), the HMAC-SHA256 hex
      digest of a payload under a secret, and `new Date(text).getTime()`, where
      `None` is NaN. */
  datatype Guard = Guard(
    webhookSecret: string,
    hmac: (string, string) -> string,
    parseDate: string -> Option<int>)

  function NewGuard(configured: Option<string>, hmac: (string, string) -> string, parseDate: string -> Option<int>)
    : (g: Guard)
    ensures g.webhookSecret == if Truthy(configured) then configured.value else ""
    ensures g.hmac == hmac && g.parseDate == parseDate
  {
    Guard(Or(configured, ""), hmac, parseDate)
  }

  /** The first non-empty of x-sasapay-signature, x-signature and signature. */
  function SignatureHeader(r: CallbackRequest): (s: Option<string>)
    ensures Truthy(r.sasapaySignature) ==> s == r.sasapaySignature
    ensures !Truthy(r.sasapaySignature) && Truthy(r.xSignature) ==> s == r.xSignature
    ensures !Truthy(r.sasapaySignature) && !Truthy(r.xSignature) ==> s == r.signature
    ensures Truthy(s) <==> Truthy(r.sasapaySignature) || Truthy(r.xSignature) || Truthy(r.signature)
  {
    OrElse(r.sasapaySignature, OrElse(r.xSignature, r.signature))
  }

  /** `verifySignature`: with no secret every signature passes; otherwise the
      digest must equal the signature. A digest of another length is a plain
      mismatch (the comparison's exception is caught). */
  predicate VerifySignature(g: Guard, payload: string, signature: string) {
    g.webhookSecret == "" || g.hmac(g.webhookSecret, payload) == signature
  }

  lemma LengthMismatchFails(g: Guard, payload: string, signature: string)
    requires g.webhookSecret != "" && |g.hmac(g.webhookSecret, payload)| != |signature|
    ensures !VerifySignature(g, payload, signature)
  {
  }

  /** `timestamp ?? Timestamp` */
  function BodyTimestamp(r: CallbackRequest): (t: Option<RawTimestamp>)
    ensures r.timestamp.Some? ==> t == r.timestamp
    ensures r.timestamp.None? ==> t == r.Timestamp
  {
    Coalesce(r.timestamp, r.Timestamp)
  }

  /** Truthiness of the timestamp field: 0 and the empty string are falsy. */
  predicate TimestampTruthy(t: Option<RawTimestamp>) {
    match t
    case None => false
    case Some(Millis(ms)) => ms != 0
    case Some(DateText(text)) => text != ""
  }

  /** The time a timestamp stands for, in milliseconds; `None` is NaN. */
  function WebhookTime(g: Guard, t: RawTimestamp): Option<int> {
    match t
    case Millis(ms) => Some(ms)
    case DateText(text) => g.parseDate(text)
  }

  /** `isTimestampValid`: the age `now - t` lies in [0, 5 minutes); a date that
      does not parse is never valid, since every comparison with NaN is false. */
  predicate IsTimestampValid(g: Guard, t: RawTimestamp, now: int) {
    var time := WebhookTime(g, t);
    time.Some? && 0 <= now - time.value < MAX_AGE_MS
  }

  /** `canActivate`: the signature is looked for first, then checked, and only
      then is the timestamp looked at. */
  function CanActivate(g: Guard, r: CallbackRequest, now: int): (result: Result<bool, PaymentException>)
    ensures result.Success? ==> result.value
    ensures result.Success? <==>
      && Truthy(SignatureHeader(r))
      && VerifySignature(g, r.payload, SignatureHeader(r).value)
      && (TimestampTruthy(BodyTimestamp(r)) ==> IsTimestampValid(g, BodyTimestamp(r).value, now))
    ensures !Truthy(SignatureHeader(r)) ==> result == Failure(Raise(InvalidSignature, Some(MISSING_SIGNATURE)))
    ensures Truthy(SignatureHeader(r)) && !VerifySignature(g, r.payload, SignatureHeader(r).value) ==>
      result == Failure(Raise(InvalidSignature, Some(INVALID_SIGNATURE)))
    ensures Truthy(SignatureHeader(r)) && VerifySignature(g, r.payload, SignatureHeader(r).value) && result.Failure? ==>
      result.error == Raise(ReplayAttack, Some(TIMESTAMP_TOO_OLD))
  {
    var signature := SignatureHeader(r);
    if !Truthy(signature) then Failure(Raise(InvalidSignature, Some(MISSING_SIGNATURE)))
    else if !VerifySignature(g, r.payload, signature.value) then Failure(Raise(InvalidSignature, Some(INVALID_SIGNATURE)))
    else
      var timestamp := BodyTimestamp(r);
      if TimestampTruthy(timestamp) && !IsTimestampValid(g, timestamp.value, now) then
        Failure(Raise(ReplayAttack, Some(TIMESTAMP_TOO_OLD)))
      else Success(true)
  }

  /** With no secret configured any non-empty signature is accepted, whatever
      the digest says. */
  lemma NoSecretAcceptsAnySignature(g: Guard, r: CallbackRequest, now: int)
    requires g.webhookSecret == "" && Truthy(SignatureHeader(r)) && !TimestampTruthy(BodyTimestamp(r))
    ensures CanActivate(g, r, now) == Success(true)
  {
  }

  /** A callback stamped in the future, or five minutes or more ago, is refused
      as a replay once its signature has passed. */
  lemma StaleOrFutureTimestampIsReplay(g: Guard, r: CallbackRequest, now: int, ms: int)
    requires Truthy(SignatureHeader(r)) && VerifySignature(g, r.payload, SignatureHeader(r).value)
    requires BodyTimestamp(r) == Some(Millis(ms)) && ms != 0
    requires ms > now || now - ms >= MAX_AGE_MS
    ensures CanActivate(g, r, now) == Failure(Raise(ReplayAttack, Some(TIMESTAMP_TOO_OLD)))
    ensures SubclassStatus(ReplayAttack) == 400
  {
  }

  /** A bad signature is reported as such even when the timestamp is stale: the
      freshness test never runs before the signature test. */
  lemma SignatureCheckedBeforeTimestamp(g: Guard, r: CallbackRequest, now: int)
    requires Truthy(SignatureHeader(r)) && !VerifySignature(g, r.payload, SignatureHeader(r).value)
    ensures CanActivate(g, r, now).Failure? && CanActivate(g, r, now).error.cls == InvalidSignature
    ensures CanActivate(g, r, now).error.statusCode == 401
  {
  }

  /** `timestamp` shadows `Timestamp` even when it is falsy: a body with
      `timestamp: 0` is not checked for freshness, whatever `Timestamp` says. */
  lemma ZeroTimestampShadows(g: Guard, r: CallbackRequest, now: int)
    requires Truthy(SignatureHeader(r)) && VerifySignature(g, r.payload, SignatureHeader(r).value)
    requires r.timestamp == Some(Millis(0))
    ensures CanActivate(g, r, now) == Success(true)
  {
  }
}
