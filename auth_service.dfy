/** AuthService: the provider's OAuth access token, cached until five minutes
    before it expires and refreshed by one credential request at a time. Time is
    a parameter `now` in milliseconds; the refresh is two steps, its start (in
    `GetAccessToken`) and its end (`FinishRefresh`, given what the token endpoint
    answered), so that "one refresh in flight" is a property of the state. */
module AuthService {
  import opened Wrappers
  import opened JsText
  import opened Exceptions

  /** The body of the token endpoint's answer. */
  datatype TokenResponse = TokenResponse(
    access_token: Option<string>,
    token_type: Option<string>,
    expires_in: Option<int>)

  /** How the credential request ended: an answer with a body, an HTTP error
      status, or no answer at all. */
  datatype CredentialOutcome =
    | Received(data: TokenResponse)
    | HttpFailure(status: int)
    | NetworkFailure

  /** A cached token. `expiresAt` is `None` when the answer had no `expires_in`,
      where the source computes NaN, which no comparison accepts. */
  datatype CachedToken = CachedToken(
    accessToken: string,
    tokenType: string,
    expiresAt: Option<int>,
    expiresIn: Option<int>,
    generatedAt: int)

  /** `TokenInfo`, what `generateToken` reports. */
  datatype TokenInfo = TokenInfo(accessToken: string, tokenType: string, expiresIn: Option<int>, generatedAt: int)

  /** What a caller of `getAccessToken` gets at once: the cached token, a failure,
      or a wait for the refresh in flight. */
  datatype Access = Token(token: string) | Rejected(error: PaymentException) | AwaitRefresh

  /** Tokens are refreshed this long before they expire. */
  const TOKEN_BUFFER_MS := 5 * 60 * 1000

  const CREDENTIALS_NOT_CONFIGURED := "SasaPay client credentials not configured"
  const NO_ACCESS_TOKEN := "No access token in response"
  const INVALID_API_CREDENTIALS := "Invalid SasaPay API credentials"
  const NETWORK_ERROR := "Network error while authenticating with SasaPay"
  const GENERATE_FAILED := "Failed to generate token"

  /** Whether a cache entry may be used at time `now`. */
  function Usable(cache: Option<CachedToken>, now: int): (b: bool)
    ensures b <==> cache.Some? && cache.value.expiresAt.Some? && now < cache.value.expiresAt.value - TOKEN_BUFFER_MS
  {
    match cache
    case None => false
    case Some(t) => t.expiresAt.Some? && now < t.expiresAt.value - TOKEN_BUFFER_MS
  }

  /** The end of a refresh: the new cache and what the refresh resolves to. */
  datatype Refreshed = Refreshed(cache: Option<CachedToken>, result: Result<string, PaymentException>)

  /** The `try` block of `refreshToken` and its `catch`, given the endpoint's
      answer at time `now`. */
  function FinishWith(outcome: CredentialOutcome, now: int): (r: Refreshed)
    ensures r.result.Success? <==> outcome.Received? && Truthy(outcome.data.access_token)
    ensures r.result.Failure? ==> r.cache.None?
    ensures r.result.Success? ==> r.cache.Some? && r.result.value == r.cache.value.accessToken
  {
    match outcome
    case Received(data) =>
      if !Truthy(data.access_token) then Refreshed(None, Failure(Raise(Authentication, Some(NO_ACCESS_TOKEN))))
      else
        var expiresAt := if data.expires_in.Some? then Some(now + data.expires_in.value * 1000) else None;
        var token := CachedToken(data.access_token.value, Or(data.token_type, "Bearer"), expiresAt, data.expires_in, now);
        Refreshed(Some(token), Success(data.access_token.value))
    case HttpFailure(status) =>
      if status == 401 then Refreshed(None, Failure(Raise(InvalidCredentials, Some(INVALID_API_CREDENTIALS))))
      else Refreshed(None, Failure(Raise(Authentication, Some("Failed to authenticate with SasaPay: " + IntToString(status)))))
    case NetworkFailure => Refreshed(None, Failure(Raise(Authentication, Some(NETWORK_ERROR))))
  }

  /** A token received at `now` with `expires_in` seconds is cached with its type
      (Bearer when the answer names none) and used until five minutes before
      `now + expires_in * 1000`. */
  lemma ReceivedTokenLifetime(data: TokenResponse, now: int, later: int)
    requires Truthy(data.access_token) && data.expires_in.Some?
    ensures var r := FinishWith(Received(data), now);
      && r.result == Success(data.access_token.value)
      && r.cache.value.tokenType == (if Truthy(data.token_type) then data.token_type.value else "Bearer")
      && r.cache.value.expiresAt == Some(now + data.expires_in.value * 1000)
      && (Usable(r.cache, later) <==> later < now + data.expires_in.value * 1000 - 300000)
  {
  }

  /** The errors a refresh ends with: 401 means invalid credentials, any other
      status, a network failure or an answer without a token is an
      authentication failure; every one of them is in the 401 class of the
      taxonomy and empties the cache. */
  lemma RefreshErrors(outcome: CredentialOutcome, now: int)
    ensures var r := FinishWith(outcome, now);
      && (outcome.HttpFailure? && outcome.status == 401 ==> r.result.Failure? && r.result.error.cls == InvalidCredentials)
      && (outcome.HttpFailure? && outcome.status != 401 ==> r.result.Failure? && r.result.error.cls == Authentication)
      && (outcome.NetworkFailure? ==> r.result == Failure(Raise(Authentication, Some(NETWORK_ERROR))))
      && (outcome.Received? && !Truthy(outcome.data.access_token) ==>
            r.result == Failure(Raise(Authentication, Some(NO_ACCESS_TOKEN))))
      && (r.result.Failure? ==> r.result.error.statusCode == 401 && r.cache.None?)
  {
  }

  /** A token answer without `expires_in` is cached but never usable. */
  lemma TokenWithoutLifetimeNeverUsable(data: TokenResponse, now: int, later: int)
    requires Truthy(data.access_token) && data.expires_in.None?
    ensures FinishWith(Received(data), now).result.Success?
    ensures !Usable(FinishWith(Received(data), now).cache, later)
  {
  }

  class AuthService {
    const clientId: string
    const clientSecret: string
    var cachedToken: Option<CachedToken>
    /** Whether `tokenRefreshPromise` is set. */
    var refreshInFlight: bool
    /** How many credential requests have been sent to the token endpoint. */
    var credentialRequests: nat

    /** The constructor reads the credentials with `|| ''`. */
    constructor(clientId: Option<string>, clientSecret: Option<string>)
      ensures this.clientId == Or(clientId, "") && this.clientSecret == Or(clientSecret, "")
      ensures cachedToken.None? && !refreshInFlight && credentialRequests == 0
    {
      this.clientId := Or(clientId, "");
      this.clientSecret := Or(clientSecret, "");
      cachedToken := None;
      refreshInFlight := false;
      credentialRequests := 0;
    }

    /** `isTokenValid` */
    function IsTokenValid(now: int): (b: bool)
      reads this
      ensures b ==> cachedToken.Some?
    {
      Usable(cachedToken, now)
    }

    /** `isAuthenticated` */
    function IsAuthenticated(now: int): (b: bool)
      reads this
      ensures b <==> IsTokenValid(now)
    {
      IsTokenValid(now)
    }

    predicate CredentialsConfigured() {
      clientId != "" && clientSecret != ""
    }

    /** `getAccessToken` up to its first wait. A usable token is returned and
        nothing changes; a caller arriving while a refresh is in flight waits for
        that refresh and starts none; otherwise a refresh starts, which with
        missing credentials fails at once, before any request, and leaves the
        cache as it was. */
    method GetAccessToken(now: int) returns (r: Access)
      modifies this
      ensures old(IsTokenValid(now)) ==>
        r == Token(old(cachedToken).value.accessToken) && refreshInFlight == old(refreshInFlight)
        && credentialRequests == old(credentialRequests)
      ensures !old(IsTokenValid(now)) && old(refreshInFlight) ==>
        r == AwaitRefresh && refreshInFlight && credentialRequests == old(credentialRequests)
      ensures !old(IsTokenValid(now)) && !old(refreshInFlight) && !CredentialsConfigured() ==>
        r == Rejected(Raise(InvalidCredentials, Some(CREDENTIALS_NOT_CONFIGURED)))
        && !refreshInFlight && credentialRequests == old(credentialRequests)
      ensures !old(IsTokenValid(now)) && !old(refreshInFlight) && CredentialsConfigured() ==>
        r == AwaitRefresh && refreshInFlight && credentialRequests == old(credentialRequests) + 1
      ensures cachedToken == old(cachedToken)
    {
      if IsTokenValid(now) {
        return Token(cachedToken.value.accessToken);
      }
      if refreshInFlight {
        return AwaitRefresh;
      }
      if !CredentialsConfigured() {
        // refreshToken throws before its try block; the finally of
        // getAccessToken clears the in-flight slot again.
        return Rejected(Raise(InvalidCredentials, Some(CREDENTIALS_NOT_CONFIGURED)));
      }
      refreshInFlight := true;
      credentialRequests := credentialRequests + 1;
      r := AwaitRefresh;
    }

    /** The end of the refresh in flight: the cache takes the outcome and the
        in-flight slot is cleared, whether the refresh succeeded or failed. The
        result is what every waiting caller receives. */
    method FinishRefresh(outcome: CredentialOutcome, now: int) returns (r: Result<string, PaymentException>)
      requires refreshInFlight
      modifies this
      ensures !refreshInFlight && credentialRequests == old(credentialRequests)
      ensures cachedToken == FinishWith(outcome, now).cache && r == FinishWith(outcome, now).result
    {
      var refreshed := FinishWith(outcome, now);
      cachedToken := refreshed.cache;
      refreshInFlight := false;
      r := refreshed.result;
    }

    /** `clearCache`: afterwards no token is valid at any time. */
    method ClearCache()
      modifies this
      ensures cachedToken.None? && forall now :: !IsAuthenticated(now)
      ensures refreshInFlight == old(refreshInFlight) && credentialRequests == old(credentialRequests)
    {
      cachedToken := None;
    }

    /** `generateToken` once its `getAccessToken` has settled with `access`: the
        cached token's details, or "Failed to generate token" when the cache is
        empty by then. */
    function GenerateToken(access: Result<string, PaymentException>): (r: Result<TokenInfo, PaymentException>)
      reads this
      ensures access.Failure? ==> r == Failure(access.error)
      ensures access.Success? && cachedToken.None? ==> r == Failure(Raise(Authentication, Some(GENERATE_FAILED)))
      ensures access.Success? && cachedToken.Some? ==>
        r.Success? && r.value.accessToken == cachedToken.value.accessToken
        && r.value.tokenType == cachedToken.value.tokenType && r.value.expiresIn == cachedToken.value.expiresIn
        && r.value.generatedAt == cachedToken.value.generatedAt
    {
      if access.Failure? then Failure(access.error)
      else match cachedToken
        case None => Failure(Raise(Authentication, Some(GENERATE_FAILED)))
        case Some(t) => Success(TokenInfo(t.accessToken, t.tokenType, t.expiresIn, t.generatedAt))
    }

    /** Single flight: callers arriving together, with no refresh finishing in
        between, all get the same answer, and together cause at most one
        credential request (none when a refresh was already in flight). */
    method Stampede(callers: nat, now: int) returns (answers: seq<Access>)
      modifies this
      ensures |answers| == callers
      ensures credentialRequests <= old(credentialRequests) + 1
      ensures old(refreshInFlight) ==> credentialRequests == old(credentialRequests)
      ensures forall k :: 0 <= k < |answers| ==> answers[k] == answers[0]
      ensures callers > 0 && answers[0] == AwaitRefresh ==>
        refreshInFlight && credentialRequests == old(credentialRequests) + (if old(refreshInFlight) then 0 else 1)
    {
      answers := [];
      ghost var start := credentialRequests;
      ghost var wasInFlight := refreshInFlight;
      while |answers| < callers
        invariant |answers| <= callers
        invariant cachedToken == old(cachedToken)
        invariant credentialRequests <= start + 1
        invariant |answers| == 0 ==> credentialRequests == start && refreshInFlight == wasInFlight
        invariant wasInFlight ==> credentialRequests == start && refreshInFlight
        invariant credentialRequests == start + 1 ==> refreshInFlight
        invariant forall k :: 0 <= k < |answers| ==> answers[k] == answers[0]
        invariant |answers| > 0 && answers[0] == AwaitRefresh ==> credentialRequests == start + (if wasInFlight then 0 else 1)
        invariant |answers| > 0 && answers[0] == AwaitRefresh ==> refreshInFlight && !Usable(cachedToken, now)
        invariant |answers| > 0 && answers[0] != AwaitRefresh ==> credentialRequests == start
        invariant |answers| > 0 && answers[0].Token? ==> refreshInFlight == wasInFlight
        invariant |answers| > 0 && answers[0].Rejected? ==> !refreshInFlight
        invariant |answers| > 0 && answers[0].Token? ==> Usable(cachedToken, now) && answers[0] == Token(cachedToken.value.accessToken)
        invariant |answers| > 0 && answers[0].Rejected? ==>
          !Usable(cachedToken, now) && !CredentialsConfigured() && answers[0] == Rejected(Raise(InvalidCredentials, Some(CREDENTIALS_NOT_CONFIGURED)))
        decreases callers - |answers|
      {
        var a := GetAccessToken(now);
        answers := answers + [a];
      }
    }
  }
}
