/** The two-tier article cache (internal/cache/persistent-cache.go): an
    in-memory map in front of the durable tier. Each operation is a step on
    an immutable state at an explicit time `now`; what the durable tier
    answered is an input (`stored`), and what the cache asks it to save is
    an output. */
module PersistentCache {
  import opened Results
  import opened AppErrors
  import opened Models
  import opened Storage

  datatype CacheItem = CacheItem(value: seq<Article>, expiration: int)

  datatype Cache = Cache(memory: map<string, CacheItem>, ttl: int, cleanupInterval: int)

  /** The result of GetArticles: the state afterwards, the articles when
      found, and whether the durable tier was consulted. */
  datatype Got = Got(cache: Cache, hit: Option<seq<Article>>, storeQueried: bool)

  /** The write SetArticles hands to the durable tier. */
  datatype SaveRequest = SaveRequest(ticker: string, payload: Bytes, expiration: int)

  datatype SetOutcome = SetOutcome(cache: Cache, save: Option<SaveRequest>)

  /** Memory is keyed by `"news_" + ticker`; the durable tier by the bare ticker. */
  function CacheKey(ticker: string): string {
    "news_" + ticker
  }

  /** Distinct tickers never share a memory slot. */
  lemma CacheKeyInjective(a: string, b: string)
    ensures CacheKey(a) == CacheKey(b) ==> a == b
  {
    if CacheKey(a) == CacheKey(b) {
      assert a == CacheKey(a)[5..] == CacheKey(b)[5..] == b;
    }
  }

  /** A Go Duration divided by two: integer division truncating toward zero. */
  function HalfDuration(d: int): (r: int)
    ensures d >= 0 ==> 0 <= d - 2 * r <= 1
    ensures d < 0 ==> 0 <= 2 * r - d <= 1
  {
    if d >= 0 then d / 2 else -((-d) / 2)
  }

  /** NewPersistentCache: empty memory, the given ttl, cleanup every ttl/2. */
  function NewPersistentCache(ttl: int): (c: Cache)
    ensures c.memory == map[]
    ensures c.ttl == ttl
    ensures ttl >= 0 ==> 0 <= ttl - 2 * c.cleanupInterval <= 1
    ensures ttl < 0 ==> 0 <= 2 * c.cleanupInterval - ttl <= 1
  {
    Cache(map[], ttl, HalfDuration(ttl))
  }

  /** The fast path: the memory entry, only while `now` is before its expiration. */
  function FastPath(c: Cache, ticker: string, now: int): (r: Option<seq<Article>>)
    ensures r.Some? <==> CacheKey(ticker) in c.memory && now < c.memory[CacheKey(ticker)].expiration
    ensures r.Some? ==> r.value == c.memory[CacheKey(ticker)].value
  {
    var key := CacheKey(ticker);
    if key in c.memory && now < c.memory[key].expiration then Some(c.memory[key].value) else None
  }

  /** GetArticles. Fast path first; otherwise the durable tier's answer. A
      store error, an absent record or a payload that does not decode are
      all a plain miss that leaves memory alone. A decoded record is copied
      into memory with the durable expiration and returned, without checking
      that expiration against `now`. */
  function GetArticles(c: Cache, ticker: string, now: int, codec: Codec, stored: Lookup<Bytes>): (r: Got)
    ensures !r.storeQueried <==> FastPath(c, ticker, now).Some?
    ensures !r.storeQueried ==> r.hit == FastPath(c, ticker, now) && r.cache == c
    ensures r.hit.None? ==> r.cache == c
    ensures r.storeQueried ==> (r.hit.Some? <==> stored.Found? && codec.unmarshal(stored.payload).Ok?)
    ensures r.storeQueried && r.hit.Some? ==>
      && r.hit.value == codec.unmarshal(stored.payload).value
      && r.cache == c.(memory := c.memory[CacheKey(ticker) := CacheItem(r.hit.value, stored.expiration)])
  {
    var fast := FastPath(c, ticker, now);
    if fast.Some? then Got(c, fast, false)
    else
      match stored
      case Failed(_) => Got(c, None, true)
      case Absent => Got(c, None, true)
      case Found(data, expiration) =>
        match codec.unmarshal(data)
        case Err(_) => Got(c, None, true)
        case Ok(articles) =>
          Got(c.(memory := c.memory[CacheKey(ticker) := CacheItem(articles, expiration)]), Some(articles), true)
  }

  /** SetArticles. Memory is written first and unconditionally with
      expiration now + ttl; then the payload is marshalled and, if that
      succeeds, handed to the durable tier with that same expiration. Nothing
      the durable tier does afterwards feeds back into memory. */
  function SetArticles(c: Cache, ticker: string, articles: seq<Article>, now: int, codec: Codec): (r: SetOutcome)
    ensures r.cache.memory == c.memory[CacheKey(ticker) := CacheItem(articles, now + c.ttl)]
    ensures r.cache.ttl == c.ttl && r.cache.cleanupInterval == c.cleanupInterval
    ensures r.save.Some? <==> codec.marshal(articles).Ok?
    ensures r.save.Some? ==> r.save.value == SaveRequest(ticker, codec.marshal(articles).value, now + c.ttl)
  {
    var expiration := now + c.ttl;
    var written := c.(memory := c.memory[CacheKey(ticker) := CacheItem(articles, expiration)]);
    match codec.marshal(articles)
    case Err(_) => SetOutcome(written, None)
    case Ok(data) => SetOutcome(written, Some(SaveRequest(ticker, data, expiration)))
  }

  /** The memory half of cleanup: an entry goes exactly when `now` is after
      its expiration; every other entry stays as it was. */
  function Cleanup(c: Cache, now: int): (r: Cache)
    ensures forall k :: k in r.memory <==> k in c.memory && !(now > c.memory[k].expiration)
    ensures forall k :: k in r.memory ==> r.memory[k] == c.memory[k]
    ensures r.ttl == c.ttl && r.cleanupInterval == c.cleanupInterval
  {
    c.(memory := map k | k in c.memory && !(now > c.memory[k].expiration) :: c.memory[k])
  }

  /** Clear drops every memory entry; the durable tier is not part of it. */
  function Clear(c: Cache): (r: Cache)
    ensures r.memory == map[]
    ensures r.ttl == c.ttl && r.cleanupInterval == c.cleanupInterval
  {
    c.(memory := map[])
  }

  /** Writing one ticker never changes what the fast path serves for
      another, neither by a set nor by a promotion from the durable tier. */
  lemma OtherTickersUnchanged(c: Cache, t: string, u: string, articles: seq<Article>, now: int, later: int,
                              codec: Codec, stored: Lookup<Bytes>)
    requires t != u
    ensures FastPath(SetArticles(c, t, articles, now, codec).cache, u, later) == FastPath(c, u, later)
    ensures FastPath(GetArticles(c, t, now, codec, stored).cache, u, later) == FastPath(c, u, later)
  {
    CacheKeyInjective(t, u);
  }

  /** Set-then-get: within the ttl the value just set is served from
      memory, whatever the durable tier would have said. */
  lemma SetThenGet(c: Cache, ticker: string, articles: seq<Article>, now: int, later: int,
                   codec: Codec, stored: Lookup<Bytes>)
    requires now <= later < now + c.ttl
    ensures GetArticles(SetArticles(c, ticker, articles, now, codec).cache, ticker, later, codec, stored)
            == Got(SetArticles(c, ticker, articles, now, codec).cache, Some(articles), false)
  {
  }

  /** An entry whose expiration is not after `now` is never served from
      memory: the read goes to the durable tier. */
  lemma ExpiredEntryFallsThrough(c: Cache, ticker: string, now: int, codec: Codec, stored: Lookup<Bytes>)
    requires CacheKey(ticker) in c.memory && c.memory[CacheKey(ticker)].expiration <= now
    ensures GetArticles(c, ticker, now, codec, stored).storeQueried
  {
  }

  /** A durable record is promoted and served even when it has already
      expired; the promoted entry is then itself expired, so the next read at
      the same time goes to the durable tier again. */
  lemma PromotionDoesNotRecheck(c: Cache, ticker: string, now: int, codec: Codec,
                                data: Bytes, expiration: int, next: Lookup<Bytes>)
    requires FastPath(c, ticker, now).None?
    requires expiration <= now && codec.unmarshal(data).Ok?
    ensures GetArticles(c, ticker, now, codec, Found(data, expiration)).hit == Some(codec.unmarshal(data).value)
    ensures GetArticles(GetArticles(c, ticker, now, codec, Found(data, expiration)).cache,
                        ticker, now, codec, next).storeQueried
  {
  }

  /** A promoted unexpired record is served from memory until the durable
      expiration, without consulting the durable tier. */
  lemma PromotionThenFastPath(c: Cache, ticker: string, now: int, later: int, codec: Codec,
                              data: Bytes, expiration: int, next: Lookup<Bytes>)
    requires FastPath(c, ticker, now).None?
    requires later < expiration && codec.unmarshal(data).Ok?
    ensures GetArticles(GetArticles(c, ticker, now, codec, Found(data, expiration)).cache,
                        ticker, later, codec, next)
            == Got(GetArticles(c, ticker, now, codec, Found(data, expiration)).cache,
                   Some(codec.unmarshal(data).value), false)
  {
  }

  /** The sweep is invisible to reads: no read at the sweep's time or later
      can tell whether it ran, because it removes only entries the fast path
      would already refuse. */
  lemma {:induction false} CleanupUnobservable(c: Cache, now: int, later: int, ticker: string,
                                               codec: Codec, stored: Lookup<Bytes>)
    requires now <= later
    ensures GetArticles(Cleanup(c, now), ticker, later, codec, stored).hit
            == GetArticles(c, ticker, later, codec, stored).hit
    ensures GetArticles(Cleanup(c, now), ticker, later, codec, stored).storeQueried
            == GetArticles(c, ticker, later, codec, stored).storeQueried
  {
    assert FastPath(Cleanup(c, now), ticker, later) == FastPath(c, ticker, later);
  }

  /** An entry expiring exactly at `now` is neither served nor swept at `now`. */
  lemma BoundaryEntry(c: Cache, ticker: string, now: int)
    requires CacheKey(ticker) in c.memory && c.memory[CacheKey(ticker)].expiration == now
    ensures FastPath(c, ticker, now).None?
    ensures CacheKey(ticker) in Cleanup(c, now).memory
  {
  }

  /** After Clear every read consults the durable tier. */
  lemma ClearForcesDurableRead(c: Cache, ticker: string, now: int, codec: Codec, stored: Lookup<Bytes>)
    ensures GetArticles(Clear(c), ticker, now, codec, stored).storeQueried
  {
  }
}
