/** IdempotencyKeyGuard: a guarded endpoint demands an idempotency key header
    holding a version 4 UUID in the text form of section 3 of RFC 4122, with the
    version of section 4.1.3 and the variant of section 4.1.1; an accepted key is
    attached to the request. */
module IdempotencyKeyGuard {
  import opened Wrappers
  import opened JsText
  import opened Exceptions

  const DEFAULT_HEADER := "Idempotency-Key"

  /** The header name in messages: the configured one, else Idempotency-Key. */
  function HeaderName(configured: Option<string>): (h: string)
    ensures Truthy(configured) ==> h == configured.value
    ensures !Truthy(configured) ==> h == DEFAULT_HEADER
  {
    Or(configured, DEFAULT_HEADER)
  }

  /** The lower-cased name the header is looked up by; no upper-case letter is
      left in it. */
  lemma LookupNameIsLowerCase(configured: Option<string>)
    ensures forall i :: 0 <= i < |LowerAscii(HeaderName(configured))| ==> !IsAsciiUpper(LowerAscii(HeaderName(configured))[i])
    ensures LowerAscii(LowerAscii(HeaderName(configured))) == LowerAscii(HeaderName(configured))
  {
  }

  predicate IsHexDigit(c: char) {
    IsDigit(c) || ('a' <= c <= 'f') || ('A' <= c <= 'F')
  }

  /** The positions of the four hyphens in the 8-4-4-4-12 layout. */
  predicate IsHyphenPosition(i: int) {
    i == 8 || i == 13 || i == 18 || i == 23
  }

  /** `UUID_V4_REGEX`, case-insensitive: 36 characters, hyphens at 8, 13, 18 and
      23, hex digits elsewhere, version digit '4' opening the third group and one
      of 8, 9, a, b opening the fourth. */
  predicate IsUuidV4(s: string) {
    && |s| == 36
    && (forall i :: 0 <= i < 36 && IsHyphenPosition(i) ==> s[i] == '-')
    && (forall i :: 0 <= i < 36 && !IsHyphenPosition(i) ==> IsHexDigit(s[i]))
    && s[14] == '4'
    && s[19] in "89abAB"
  }

  /** The guard's outcome: the key to attach, or the exception it throws. */
  function ValidateKey(headerName: string, key: Option<string>, isUuid: string -> bool): (r: Result<string, PaymentException>)
    ensures r.Success? <==> Truthy(key) && isUuid(key.value) && IsUuidV4(key.value)
    ensures r.Success? ==> r.value == key.value
    ensures !Truthy(key) ==> r == Failure(Raise(MissingIdempotencyKey, Some(headerName + " header is required for this endpoint")))
    ensures Truthy(key) && !isUuid(key.value) ==>
      r == Failure(Raise(InvalidIdempotencyKey, Some(headerName + " must be a valid UUID")))
    ensures Truthy(key) && isUuid(key.value) && !IsUuidV4(key.value) ==>
      r == Failure(Raise(InvalidIdempotencyKey, Some(headerName + " must be a valid UUID v4")))
  {
    if !Truthy(key) then Failure(Raise(MissingIdempotencyKey, Some(headerName + " header is required for this endpoint")))
    else if !isUuid(key.value) then Failure(Raise(InvalidIdempotencyKey, Some(headerName + " must be a valid UUID")))
    else if !IsUuidV4(key.value) then Failure(Raise(InvalidIdempotencyKey, Some(headerName + " must be a valid UUID v4")))
    else Success(key.value)
  }

  /** With a general UUID test that admits every version 4 UUID, exactly the
      version 4 UUIDs pass, and every refusal is a 400. */
  lemma AcceptsExactlyV4(headerName: string, key: Option<string>, isUuid: string -> bool)
    requires forall s :: IsUuidV4(s) ==> isUuid(s)
    ensures ValidateKey(headerName, key, isUuid).Success? <==> key.Some? && IsUuidV4(key.value)
    ensures ValidateKey(headerName, key, isUuid).Failure? ==> ValidateKey(headerName, key, isUuid).error.statusCode == 400
  {
  }

  /** Upper-case hex digits are accepted like lower-case ones. */
  lemma CaseInsensitive(s: string)
    requires IsUuidV4(s)
    ensures IsUuidV4(UpperHex(s))
  {
  }

  /** `s` with the hex letters a to f capitalised. */
  function UpperHex(s: string): string {
    seq(|s|, i requires 0 <= i < |s| => if 'a' <= s[i] <= 'f' then (s[i] as int - 32) as char else s[i])
  }

  /** The request a guard inspects: its headers, by lower-case name, and the key
      attached to it once the guard has accepted it. */
  class GuardedRequest {
    const headers: map<string, string>
    var idempotencyKey: Option<string>

    constructor(headers: map<string, string>)
      ensures this.headers == headers && idempotencyKey.None?
    {
      this.headers := headers;
      idempotencyKey := None;
    }

    function Header(name: string): (v: Option<string>)
      ensures v.Some? <==> name in headers
      ensures v.Some? ==> v.value == headers[name]
    {
      if name in headers then Some(headers[name]) else None
    }
  }

  /** `canActivate`: on acceptance the key is attached and the guard returns
      true; a refusal throws and leaves the request as it was. */
  method CanActivate(request: GuardedRequest, configured: Option<string>, isUuid: string -> bool)
    returns (r: Result<bool, PaymentException>)
    modifies request
    ensures var checked := ValidateKey(HeaderName(configured), request.Header(LowerAscii(HeaderName(configured))), isUuid);
      && (checked.Success? ==> r == Success(true) && request.idempotencyKey == Some(checked.value))
      && (checked.Failure? ==> r == Failure(checked.error) && request.idempotencyKey == old(request.idempotencyKey))
  {
    var headerName := HeaderName(configured);
    var key := request.Header(LowerAscii(headerName));
    var checked := ValidateKey(headerName, key, isUuid);
    if checked.Failure? {
      return Failure(checked.error);
    }
    request.idempotencyKey := Some(checked.value);
    r := Success(true);
  }
}
