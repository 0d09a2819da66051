/** The cache and a durable backend together: the in-memory state plus the
    `articles` table, with each cache operation driving the backend's
    statements. `fault` is the error the backend's statement reports, if any.
    `Read` is each backend's read with the expiry filter the interface
    promises; `ReadAsWritten` is the read each backend actually performs. */
module Tiers {
  import opened Results
  import opened AppErrors
  import opened Models
  import opened Storage
  import C = PersistentCache
  import P = Postgres
  import S = Sqlite

  datatype Backend = Postgres | SQLite

  datatype Tiers = Tiers(cache: C.Cache, table: Table)

  /** A read's answer and the state it leaves. */
  datatype Served = Served(state: Tiers, hit: Option<seq<Article>>, storeQueried: bool)

  function Read(b: Backend, t: Table, ticker: string, now: int, fault: Option<Error>): (r: Lookup<Bytes>)
    ensures ReadsOnlyLive(r, t, ticker, now)
    ensures fault.None? ==> (r.Found? <==> ticker in t && t[ticker].expiration > now)
  {
    match b
    case Postgres => P.GetArticles(t, ticker, now, fault)
    case SQLite => S.SelectRow(t, ticker, now, fault)
  }

  function ReadAsWritten(b: Backend, t: Table, ticker: string, now: int, fault: Option<Error>): Lookup<Bytes> {
    match b
    case Postgres => P.GetArticlesAsWritten(t, ticker, now, fault)
    case SQLite => S.SelectRowAsWritten(t, ticker, fault)
  }

  function DeleteExpired(b: Backend, t: Table, now: int, fault: Option<Error>, affected: Result<int, Error>): Written {
    match b
    case Postgres => P.DeleteExpired(t, now, fault, affected)
    case SQLite => S.DeleteExpired(t, now, fault, affected)
  }

  /** The cache's read over a given durable answer; the table is only read. */
  function Serve(s: Tiers, ticker: string, now: int, codec: Codec, stored: Lookup<Bytes>): (r: Served)
    ensures r.state.table == s.table
  {
    var g := C.GetArticles(s.cache, ticker, now, codec, stored);
    Served(Tiers(g.cache, s.table), g.hit, g.storeQueried)
  }

  function Get(b: Backend, s: Tiers, ticker: string, now: int, codec: Codec, fault: Option<Error>): Served {
    Serve(s, ticker, now, codec, Read(b, s.table, ticker, now, fault))
  }

  function GetAsWritten(b: Backend, s: Tiers, ticker: string, now: int, codec: Codec, fault: Option<Error>): Served {
    Serve(s, ticker, now, codec, ReadAsWritten(b, s.table, ticker, now, fault))
  }

  /** SetArticles write-through: memory as the cache decides, the table
      changed only by a save the cache actually issued and the backend
      accepted. A failed save is swallowed. */
  function Set(b: Backend, s: Tiers, ticker: string, articles: seq<Article>, now: int, codec: Codec,
               fault: Option<Error>): (r: Tiers)
    ensures r.cache == C.SetArticles(s.cache, ticker, articles, now, codec).cache
    ensures fault.Some? || codec.marshal(articles).Err? ==> r.table == s.table
    ensures fault.None? && codec.marshal(articles).Ok? ==>
      r.table == s.table[ticker := Record(codec.marshal(articles).value, now + s.cache.ttl, now)]
  {
    var o := C.SetArticles(s.cache, ticker, articles, now, codec);
    match o.save
    case None => Tiers(o.cache, s.table)
    case Some(req) => Tiers(o.cache, Storage.Write(s.table, req.ticker, req.payload, req.expiration, now, fault).table)
  }

  /** cleanup as it runs once its lock calls are corrected
      (`RWMutex.CleanupCorrectedRestores`): sweep memory, then ask the backend
      to delete expired rows; the backend's error is only logged. With the
      lock calls as written the process aborts before the backend is asked
      (`RWMutex.CleanupAsWrittenAborts`). */
  function Cleanup(b: Backend, s: Tiers, now: int, fault: Option<Error>, affected: Result<int, Error>): (r: Tiers)
    ensures forall k :: k in r.cache.memory <==> k in s.cache.memory && s.cache.memory[k].expiration >= now
    ensures forall k :: k in r.cache.memory ==> r.cache.memory[k] == s.cache.memory[k]
    ensures fault.Some? ==> r.table == s.table
    ensures fault.None? ==> SweepsExactlyExpired(s.table, r.table, now)
  {
    Tiers(C.Cleanup(s.cache, now), DeleteExpired(b, s.table, now, fault, affected).table)
  }

  function Clear(s: Tiers): (r: Tiers)
    ensures r.table == s.table && r.cache.memory == map[]
  {
    Tiers(C.Clear(s.cache), s.table)
  }

  /** Set-then-get at the same time returns the value just set from memory,
      on either backend, even when the save failed and whatever the read
      of the backend would report. */
  lemma SetThenGet(b: Backend, s: Tiers, ticker: string, articles: seq<Article>, now: int, codec: Codec,
                   setFault: Option<Error>, getFault: Option<Error>)
    requires s.cache.ttl > 0
    ensures Get(b, Set(b, s, ticker, articles, now, codec, setFault), ticker, now, codec, getFault).hit == Some(articles)
    ensures !Get(b, Set(b, s, ticker, articles, now, codec, setFault), ticker, now, codec, getFault).storeQueried
  {
    var s1 := Set(b, s, ticker, articles, now, codec, setFault);
    C.SetThenGet(s.cache, ticker, articles, now, now, codec, Read(b, s1.table, ticker, now, getFault));
  }

  /** Expiration law: once ttl has passed since a successful write-through,
      the ticker reads as a miss although nothing has been swept. */
  lemma ExpirationLaw(b: Backend, s: Tiers, ticker: string, articles: seq<Article>, now: int, later: int,
                      codec: Codec, getFault: Option<Error>)
    requires codec.marshal(articles).Ok?
    requires later >= now + s.cache.ttl
    ensures Get(b, Set(b, s, ticker, articles, now, codec, None), ticker, later, codec, getFault).hit == None
  {
    var s1 := Set(b, s, ticker, articles, now, codec, None);
    assert s1.cache.memory[C.CacheKey(ticker)].expiration == now + s.cache.ttl;
    assert s1.table[ticker].expiration == now + s.cache.ttl;
  }

  /** Promotion law: after a successful write-through and a Clear (a restart
      of the process), a read within the ttl is answered by the durable tier
      with exactly the articles written, and the read after it is a memory
      hit. */
  lemma PromotionLaw(b: Backend, s: Tiers, ticker: string, articles: seq<Article>, now: int, later: int,
                     codec: Codec, nextFault: Option<Error>)
    requires RoundTrips(codec)
    requires codec.marshal(articles).Ok?
    requires now <= later < now + s.cache.ttl
    ensures Get(b, Clear(Set(b, s, ticker, articles, now, codec, None)), ticker, later, codec, None).hit
            == Some(articles)
    ensures var g := Get(b, Clear(Set(b, s, ticker, articles, now, codec, None)), ticker, later, codec, None);
            Get(b, g.state, ticker, later, codec, nextFault) == Served(g.state, Some(articles), false)
  {
    var s1 := Clear(Set(b, s, ticker, articles, now, codec, None));
    var data := codec.marshal(articles).value;
    assert s1.table[ticker] == Record(data, now + s.cache.ttl, now);
    assert Read(b, s1.table, ticker, later, None) == Found(data, now + s.cache.ttl);
    var g := Get(b, s1, ticker, later, codec, None);
    assert g.state.cache.memory[C.CacheKey(ticker)] == C.CacheItem(articles, now + s.cache.ttl);
  }

  /** Sweep law: a sweep that the backend accepts removes from both tiers
      every entry it runs strictly after, and keeps every entry not yet
      expired unchanged in both. */
  lemma SweepLaw(b: Backend, s: Tiers, now: int, affected: Result<int, Error>, ticker: string)
    ensures var key, r := C.CacheKey(ticker), Cleanup(b, s, now, None, affected);
      key in s.cache.memory && s.cache.memory[key].expiration < now ==> key !in r.cache.memory
    ensures var r := Cleanup(b, s, now, None, affected);
      ticker in s.table && s.table[ticker].expiration < now ==> ticker !in r.table
    ensures var key, r := C.CacheKey(ticker), Cleanup(b, s, now, None, affected);
      key in s.cache.memory && s.cache.memory[key].expiration > now ==>
        key in r.cache.memory && r.cache.memory[key] == s.cache.memory[key]
    ensures var r := Cleanup(b, s, now, None, affected);
      ticker in s.table && s.table[ticker].expiration > now ==>
        ticker in r.table && r.table[ticker] == s.table[ticker]
  {
  }

  /** The two backends disagree only at the boundary: a row expiring exactly
      at the sweep's time is deleted by Postgres (`<=`) and kept by SQLite (`<`). */
  lemma SweepBoundary(t: Table, ticker: string, now: int)
    requires ticker in t && t[ticker].expiration == now
    ensures ticker !in DeleteExpired(Postgres, t, now, None, Ok(0)).table
    ensures ticker in DeleteExpired(SQLite, t, now, None, Ok(0)).table
  {
  }

  /** The deployed ten-minute ttl, in Go nanoseconds: set at 0, a read at
      five minutes hits, a read at eleven minutes misses. */
  lemma TenMinuteScenario(b: Backend, s: Tiers, x: Article, codec: Codec)
    requires s.cache.ttl == 600_000_000_000
    requires codec.marshal([x]).Ok?
    ensures Get(b, Set(b, s, "AAPL", [x], 0, codec, None), "AAPL", 300_000_000_000, codec, None).hit == Some([x])
    ensures Get(b, Set(b, s, "AAPL", [x], 0, codec, None), "AAPL", 660_000_000_000, codec, None).hit == None
  {
    var s1 := Set(b, s, "AAPL", [x], 0, codec, None);
    C.SetThenGet(s.cache, "AAPL", [x], 0, 300_000_000_000, codec, Read(b, s1.table, "AAPL", 300_000_000_000, None));
    ExpirationLaw(b, s, "AAPL", [x], 0, 660_000_000_000, codec, None);
  }

  /** The Postgres read as written (finding): after a restart the durable
      tier is never used, even for a record written a moment ago. */
  lemma PostgresAsWrittenNeverPromotes(s: Tiers, ticker: string, articles: seq<Article>, now: int, codec: Codec)
    requires RoundTrips(codec)
    requires codec.marshal(articles).Ok?
    requires s.cache.ttl > 0
    ensures Get(Postgres, Clear(Set(Postgres, s, ticker, articles, now, codec, None)), ticker, now, codec, None).hit
            == Some(articles)
    ensures GetAsWritten(Postgres, Clear(Set(Postgres, s, ticker, articles, now, codec, None)), ticker, now, codec, None).hit
            == None
  {
    PromotionLaw(Postgres, s, ticker, articles, now, now, codec, None);
  }

  /** The SQLite read as written (finding): the expiration law fails, since
      an unswept expired row is served and promoted. */
  lemma SqliteAsWrittenBreaksExpirationLaw(s: Tiers, ticker: string, articles: seq<Article>, now: int,
                                           later: int, codec: Codec)
    requires RoundTrips(codec)
    requires codec.marshal(articles).Ok?
    requires later >= now + s.cache.ttl
    ensures GetAsWritten(SQLite, Set(SQLite, s, ticker, articles, now, codec, None), ticker, later, codec, None).hit
            == Some(articles)
    ensures Get(SQLite, Set(SQLite, s, ticker, articles, now, codec, None), ticker, later, codec, None).hit
            == None
  {
    var s1 := Set(SQLite, s, ticker, articles, now, codec, None);
    assert s1.cache.memory[C.CacheKey(ticker)].expiration == now + s.cache.ttl;
    assert s1.table[ticker] == Record(codec.marshal(articles).value, now + s.cache.ttl, now);
    ExpirationLaw(SQLite, s, ticker, articles, now, later, codec, None);
  }
}
