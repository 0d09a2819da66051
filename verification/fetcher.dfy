/** AlphaVantageFetcher.GetNewsByTicker (internal/news/alphavantage_fetcher.go):
    cache-aside over the two-tier cache. `stored` is what the durable tier
    answers if the cache asks it; `origin` is the AlphaVantage client for a
    ticker. */
module Fetcher {
  import opened Results
  import opened AppErrors
  import opened Models
  import opened Storage
  import opened PersistentCache

  type Origin = string -> Result<seq<Article>, Error>

  datatype Fetched = Fetched(cache: Cache, result: Result<seq<Article>, Error>, originCalled: bool,
                             save: Option<SaveRequest>)

  /** A cache hit is returned and origin is never called. On a miss origin is
      called with the same ticker: its error comes back wrapped with every
      sentinel still detectable and nothing cached; its list is written to
      the cache under the same ticker and returned. */
  function GetNewsByTicker(c: Cache, ticker: string, now: int, codec: Codec, stored: Lookup<Bytes>,
                           origin: Origin): (r: Fetched)
    ensures var g := GetArticles(c, ticker, now, codec, stored);
      g.hit.Some? ==> r == Fetched(g.cache, Ok(g.hit.value), false, None)
    ensures var g := GetArticles(c, ticker, now, codec, stored);
      g.hit.None? ==> r.originCalled
    ensures var g := GetArticles(c, ticker, now, codec, stored);
      g.hit.None? && origin(ticker).Err? ==>
        && r.cache == c && r.save == None && r.result.Err?
        && (forall s :: Is(r.result.error, s) <==> Is(origin(ticker).error, s))
    ensures var g := GetArticles(c, ticker, now, codec, stored);
      g.hit.None? && origin(ticker).Ok? ==>
        && r.result == origin(ticker)
        && r.cache.memory == c.memory[CacheKey(ticker) := CacheItem(origin(ticker).value, now + c.ttl)]
        && r.save == SetArticles(c, ticker, origin(ticker).value, now, codec).save
  {
    var g := GetArticles(c, ticker, now, codec, stored);
    if g.hit.Some? then Fetched(g.cache, Ok(g.hit.value), false, None)
    else match origin(ticker)
      case Err(e) => Fetched(g.cache, Err(Wrapped("error fetching news: ", e, "")), true, None)
      case Ok(articles) =>
        var o := SetArticles(g.cache, ticker, articles, now, codec);
        Fetched(o.cache, Ok(articles), true, o.save)
  }

  /** Cache-aside pays off: after a successful origin fetch, the next fetch
      of the same ticker within the ttl returns the same list without
      calling origin, whatever origin and the durable tier would say. */
  lemma SecondFetchHitsCache(c: Cache, ticker: string, now: int, later: int, codec: Codec,
                             stored: Lookup<Bytes>, stored2: Lookup<Bytes>, origin: Origin, origin2: Origin)
    requires now <= later < now + c.ttl
    requires GetNewsByTicker(c, ticker, now, codec, stored, origin).originCalled
    requires origin(ticker).Ok?
    ensures var first := GetNewsByTicker(c, ticker, now, codec, stored, origin);
      var second := GetNewsByTicker(first.cache, ticker, later, codec, stored2, origin2);
      !second.originCalled && second.result == first.result
  {
    SetThenGet(c, ticker, origin(ticker).value, now, later, codec, stored2);
  }
}
