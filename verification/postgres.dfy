/** The Postgres backend of the durable tier
    (internal/storage/postgres-storage.go), as the effect of its statements
    on the `articles` table; its upsert is `Storage.Write`. `fault` is the
    error the driver reports for the statement, if any. */
module Postgres {
  import opened Results
  import opened AppErrors
  import opened Models
  import opened Storage

  /** What the driver reports when a statement names `$2` but only one
      argument is bound. */
  const BindError: Error := Message("pq: got 1 parameters but the statement requires 2")

  /** GetArticles as written: the query says `expiration > $2` but only the
      ticker is bound, so every call fails, whatever the table holds. */
  function GetArticlesAsWritten(t: Table, ticker: string, now: int, fault: Option<Error>): (r: Lookup<Bytes>)
    ensures r.Failed?
    ensures fault.None? ==> r == Failed(BindError)
  {
    if fault.Some? then Failed(fault.value) else Failed(BindError)
  }

  /** GetArticles with `now` bound as `$2`: the ticker's row when its
      expiration is after now; no row is absence, not an error. */
  function GetArticles(t: Table, ticker: string, now: int, fault: Option<Error>): (r: Lookup<Bytes>)
    ensures fault.Some? ==> r == Failed(fault.value)
    ensures fault.None? ==> !r.Failed?
    ensures fault.None? ==> (r.Found? <==> ticker in t && t[ticker].expiration > now)
    ensures ReadsOnlyLive(r, t, ticker, now)
  {
    if fault.Some? then Failed(fault.value)
    else if ticker in t && t[ticker].expiration > now then Found(t[ticker].data, t[ticker].expiration)
    else Absent
  }

  /** `DELETE FROM articles WHERE expiration <= now`. Zero rows is success;
      `affected` is what RowsAffected reports, and its failure is only logged. */
  function DeleteExpired(t: Table, now: int, fault: Option<Error>, affected: Result<int, Error>): (r: Written)
    ensures r.err == fault
    ensures fault.Some? ==> r.table == t
    ensures fault.None? ==> SweepsExactlyExpired(t, r.table, now)
    ensures fault.None? ==> forall k :: k in r.table <==> k in t && t[k].expiration > now
  {
    if fault.Some? then Written(t, fault)
    else Written(Keep(t, e => e > now), None)
  }

  /** The interface contract (storage.go:13-16): after a successful save, a
      read before the expiration returns exactly the saved payload and
      expiration, and reads of other tickers are unchanged. */
  lemma SaveThenGet(t: Table, ticker: string, data: Bytes, expiration: int, saved: int, now: int)
    requires now < expiration
    ensures GetArticles(Write(t, ticker, data, expiration, saved, None).table, ticker, now, None)
            == Found(data, expiration)
    ensures forall k :: k != ticker ==>
      GetArticles(Write(t, ticker, data, expiration, saved, None).table, k, now, None)
      == GetArticles(t, k, now, None)
  {
  }

  /** The defect: a live row is in the table, the contract says it is found,
      and the read as written fails. */
  lemma AsWrittenMissesLiveRow(t: Table, ticker: string, now: int)
    requires ticker in t && t[ticker].expiration > now
    ensures GetArticles(t, ticker, now, None).Found?
    ensures GetArticlesAsWritten(t, ticker, now, None) == Failed(BindError)
  {
  }

  /** The sweep's `<=` and the read's `>` are complementary: a sweep at `now`
      changes no read at `now` or later. */
  lemma SweepInvisibleToReads(t: Table, now: int, later: int, ticker: string)
    requires now <= later
    ensures GetArticles(DeleteExpired(t, now, None, Ok(0)).table, ticker, later, None)
            == GetArticles(t, ticker, later, None)
  {
  }

  /** The sweep's result does not depend on what RowsAffected reports. */
  lemma RowsAffectedIgnored(t: Table, now: int, fault: Option<Error>, a: Result<int, Error>, b: Result<int, Error>)
    ensures DeleteExpired(t, now, fault, a) == DeleteExpired(t, now, fault, b)
  {
  }
}
