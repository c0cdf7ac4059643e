/** IdempotencyInterceptor: a request carrying an accepted idempotency key is
    answered from the response cache when an answer for that key is stored and
    has not expired; otherwise the handler runs and its answer is stored under
    the key for the configured time to live. */
module IdempotencyInterceptor {
  import opened Wrappers
  import opened JsText
  import opened Exceptions

  const PREFIX := "idempotency:"
  const DEFAULT_TTL := 86400

  /** An answer: the status code and the (serialised) body. */
  datatype Reply = Reply(statusCode: int, body: string)

  /** What the cache holds for a key: `{ statusCode, body, timestamp }`. */
  datatype CachedResponse = CachedResponse(statusCode: int, body: string, timestamp: string)

  /** A cache entry and the instant it expires. */
  datatype Entry = Entry(value: CachedResponse, expiresAt: int)

  function CacheKey(idempotencyKey: string): (k: string)
    ensures StartsWith(k, PREFIX) && k[|PREFIX|..] == idempotencyKey
  {
    PREFIX + idempotencyKey
  }

  /** Distinct idempotency keys never share a cache entry. */
  lemma CacheKeyInjective(a: string, b: string)
    requires CacheKey(a) == CacheKey(b)
    ensures a == b
  {
    assert a == CacheKey(a)[|PREFIX|..];
  }

  /** `configService.get('idempotency.ttl') || 86400`, in seconds. */
  function Ttl(configured: Option<int>): (t: int)
    ensures configured.Some? && configured.value != 0 ==> t == configured.value
    ensures configured.None? || configured.value == 0 ==> t == DEFAULT_TTL
  {
    if configured.Some? && configured.value != 0 then configured.value else DEFAULT_TTL
  }

  /** `redis.get`: an entry is seen until it expires. */
  function Lookup(entries: map<string, Entry>, key: string, now: int): (r: Option<CachedResponse>)
    ensures r.Some? <==> key in entries && now < entries[key].expiresAt
    ensures r.Some? ==> r.value == entries[key].value
  {
    if key in entries && now < entries[key].expiresAt then Some(entries[key].value) else None
  }

  /** `redis.setex`: the entry replaces any earlier one and lives `ttl` seconds. */
  function Store(entries: map<string, Entry>, key: string, value: CachedResponse, ttl: int, now: int)
    : (r: map<string, Entry>)
    ensures r.Keys == entries.Keys + {key}
    ensures r[key] == Entry(value, now + ttl * 1000)
    ensures forall k :: k in entries && k != key ==> r[k] == entries[k]
  {
    entries[key := Entry(value, now + ttl * 1000)]
  }

  /** A stored answer is replayed unchanged for as long as it lives, and no
      other key's answer changes. */
  lemma StoreThenLookup(entries: map<string, Entry>, key: string, value: CachedResponse, ttl: int, now: int, t: int)
    requires now <= t < now + ttl * 1000
    ensures Lookup(Store(entries, key, value, ttl, now), key, t) == Some(value)
    ensures forall k :: k != key ==> Lookup(Store(entries, key, value, ttl, now), k, t) == Lookup(entries, k, t)
  {
  }

  /** How a request was served: the answer sent and whether the handler ran. */
  datatype Served = Served(reply: Result<Reply, Thrown>, handlerRan: bool)

  /** The Redis client: entries by cache key. */
  class ResponseCache {
    var entries: map<string, Entry>

    constructor()
      ensures entries == map[]
    {
      entries := map[];
    }
  }

  class IdempotencyInterceptor {
    const cache: ResponseCache
    const configuredTtl: Option<int>

    constructor(cache: ResponseCache, configuredTtl: Option<int>)
      ensures this.cache == cache && this.configuredTtl == configuredTtl
    {
      this.cache := cache;
      this.configuredTtl := configuredTtl;
    }

    /** `intercept`. `handler` is what the route handler answers when it runs;
        `writeFails` says whether the cache write is refused (a refused write is
        only logged); a time to live that is not positive is refused by Redis.
        `timestamp` is the ISO time the answer is stamped with. */
    method Intercept(idempotencyKey: Option<string>, handler: Result<Reply, Thrown>, writeFails: bool,
                     now: int, timestamp: string) returns (s: Served)
      modifies cache
      ensures !Truthy(idempotencyKey) ==> s == Served(handler, true) && cache.entries == old(cache.entries)
      ensures Truthy(idempotencyKey) ==> match Lookup(old(cache.entries), CacheKey(idempotencyKey.value), now)
        case Some(hit) =>
          s == Served(Success(Reply(hit.statusCode, hit.body)), false) && cache.entries == old(cache.entries)
        case None =>
          && s == Served(handler, true)
          && (handler.Success? && !writeFails && Ttl(configuredTtl) > 0 ==>
                cache.entries == Store(old(cache.entries), CacheKey(idempotencyKey.value),
                                       CachedResponse(handler.value.statusCode, handler.value.body, timestamp),
                                       Ttl(configuredTtl), now))
          && (handler.Failure? || writeFails || Ttl(configuredTtl) <= 0 ==> cache.entries == old(cache.entries))
    {
      if !Truthy(idempotencyKey) {
        return Served(handler, true);
      }
      var cacheKey := CacheKey(idempotencyKey.value);
      var cached := Lookup(cache.entries, cacheKey, now);
      if cached.Some? {
        return Served(Success(Reply(cached.value.statusCode, cached.value.body)), false);
      }
      if handler.Success? {
        var ttl := Ttl(configuredTtl);
        if !writeFails && ttl > 0 {
          cache.entries := Store(cache.entries, cacheKey,
                                 CachedResponse(handler.value.statusCode, handler.value.body, timestamp), ttl, now);
        }
      }
      s := Served(handler, true);
    }

    /** Two requests with the same key inside the time to live: the first runs
        the handler and stores its answer, the second replays that answer
        without running the handler. */
    method RepeatRequest(idempotencyKey: string, handler: Result<Reply, Thrown>, second: Result<Reply, Thrown>,
                         now: int, later: int, timestamp: string) returns (first: Served, replay: Served)
      requires idempotencyKey != "" && handler.Success? && Ttl(configuredTtl) > 0
      requires Lookup(cache.entries, CacheKey(idempotencyKey), now).None?
      requires now <= later < now + Ttl(configuredTtl) * 1000
      modifies cache
      ensures first == Served(handler, true)
      ensures replay == Served(handler, false)
    {
      first := Intercept(Some(idempotencyKey), handler, false, now, timestamp);
      StoreThenLookup(old(cache.entries), CacheKey(idempotencyKey),
                      CachedResponse(handler.value.statusCode, handler.value.body, timestamp), Ttl(configuredTtl), now, later);
      replay := Intercept(Some(idempotencyKey), second, false, later, timestamp);
    }
  }
}
