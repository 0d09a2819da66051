/** The SQLite backend of the durable tier
    (internal/storage/sqlite-storage.go). Its statements are modelled on the
    byte rows of the table; SaveArticles and GetArticles add the JSON
    encoding this backend performs itself. */
module Sqlite {
  import opened Results
  import opened AppErrors
  import opened Models
  import opened Storage

  /** SaveArticles: the articles are marshalled first; a marshal error is
      returned and nothing is written. */
  function SaveArticles(t: Table, ticker: string, articles: seq<Article>, expiration: int, now: int,
                        codec: Codec, fault: Option<Error>): (r: Written)
    ensures r.err.None? <==> codec.marshal(articles).Ok? && fault.None?
    ensures codec.marshal(articles).Err? ==> r == Written(t, Some(codec.marshal(articles).error))
    ensures r.err.Some? ==> r.table == t
    ensures r.err.None? ==> r.table.Keys == t.Keys + {ticker}
    ensures r.err.None? ==> r.table[ticker] == Record(codec.marshal(articles).value, expiration, now)
    ensures r.err.None? ==> forall k :: k in t && k != ticker ==> r.table[k] == t[k]
  {
    match codec.marshal(articles)
    case Err(e) => Written(t, Some(e))
    case Ok(data) => Write(t, ticker, data, expiration, now, fault)
  }

  /** `SELECT data, expiration FROM articles WHERE ticker = ?` as written:
      there is no expiration filter and no `now` at all. */
  function SelectRowAsWritten(t: Table, ticker: string, fault: Option<Error>): (r: Lookup<Bytes>)
    ensures fault.Some? ==> r == Failed(fault.value)
    ensures fault.None? ==> (r.Found? <==> ticker in t) && !r.Failed?
    ensures r.Found? ==> ticker in t && r == Found(t[ticker].data, t[ticker].expiration)
  {
    if fault.Some? then Failed(fault.value)
    else if ticker in t then Found(t[ticker].data, t[ticker].expiration)
    else Absent
  }

  /** The same query with `AND expiration > ?` bound to now, as the interface
      documents for every backend. */
  function SelectRow(t: Table, ticker: string, now: int, fault: Option<Error>): (r: Lookup<Bytes>)
    ensures fault.Some? ==> r == Failed(fault.value)
    ensures fault.None? ==> (r.Found? <==> ticker in t && t[ticker].expiration > now) && !r.Failed?
    ensures ReadsOnlyLive(r, t, ticker, now)
  {
    if fault.Some? then Failed(fault.value)
    else if ticker in t && t[ticker].expiration > now then Found(t[ticker].data, t[ticker].expiration)
    else Absent
  }

  /** The unmarshalling step of GetArticles: a row that does not decode is
      reported as `found = false` with the decode error. */
  function Decode(row: Lookup<Bytes>, codec: Codec): (r: Lookup<seq<Article>>)
    ensures row.Absent? <==> r.Absent?
    ensures r.Found? <==> row.Found? && codec.unmarshal(row.payload).Ok?
    ensures r.Found? ==> r == Found(codec.unmarshal(row.payload).value, row.expiration)
    ensures row.Found? && codec.unmarshal(row.payload).Err? ==> r == Failed(codec.unmarshal(row.payload).error)
    ensures row.Failed? ==> r == Failed(row.err)
  {
    match row
    case Absent => Absent
    case Failed(e) => Failed(e)
    case Found(data, expiration) =>
      match codec.unmarshal(data)
      case Ok(articles) => Found(articles, expiration)
      case Err(e) => Failed(e)
  }

  /** GetArticles as written: any stored row of the ticker, expired or not. */
  function GetArticlesAsWritten(t: Table, ticker: string, codec: Codec, fault: Option<Error>): (r: Lookup<seq<Article>>)
    ensures r.Absent? <==> fault.None? && ticker !in t
    ensures r.Found? <==> fault.None? && ticker in t && codec.unmarshal(t[ticker].data).Ok?
    ensures r.Found? ==> r == Found(codec.unmarshal(t[ticker].data).value, t[ticker].expiration)
  {
    Decode(SelectRowAsWritten(t, ticker, fault), codec)
  }

  /** GetArticles with the expiration filter the interface promises. */
  function GetArticles(t: Table, ticker: string, now: int, codec: Codec, fault: Option<Error>): (r: Lookup<seq<Article>>)
    ensures r.Found? <==>
      fault.None? && ticker in t && t[ticker].expiration > now && codec.unmarshal(t[ticker].data).Ok?
    ensures r.Found? ==> r == Found(codec.unmarshal(t[ticker].data).value, t[ticker].expiration)
    ensures r.Found? ==> now < r.expiration
  {
    Decode(SelectRow(t, ticker, now, fault), codec)
  }

  /** `DELETE FROM articles WHERE expiration < now`: a row expiring exactly
      now survives. RowsAffected failing is only logged. */
  function DeleteExpired(t: Table, now: int, fault: Option<Error>, affected: Result<int, Error>): (r: Written)
    ensures r.err == fault
    ensures fault.Some? ==> r.table == t
    ensures fault.None? ==> SweepsExactlyExpired(t, r.table, now)
    ensures fault.None? ==> forall k :: k in r.table <==> k in t && t[k].expiration >= now
  {
    if fault.Some? then Written(t, fault)
    else Written(Keep(t, e => e >= now), None)
  }

  /** The defect: a row whose expiration has passed but which no sweep has
      removed yet is returned as found, although the interface says a read
      returns articles only if they have not expired. The corrected read
      reports it absent. */
  lemma AsWrittenServesExpiredRow(t: Table, ticker: string, now: int, codec: Codec)
    requires ticker in t && t[ticker].expiration <= now
    requires codec.unmarshal(t[ticker].data).Ok?
    ensures GetArticlesAsWritten(t, ticker, codec, None).Found?
    ensures GetArticlesAsWritten(t, ticker, codec, None).expiration <= now
    ensures GetArticles(t, ticker, now, codec, None) == Absent
  {
  }

  /** Save-then-get: with a codec that round-trips, a successful save is read
      back before its expiration as exactly the saved articles. */
  lemma SaveThenGet(t: Table, ticker: string, articles: seq<Article>, expiration: int, saved: int,
                    now: int, codec: Codec)
    requires RoundTrips(codec)
    requires codec.marshal(articles).Ok?
    requires now < expiration
    ensures GetArticles(SaveArticles(t, ticker, articles, expiration, saved, codec, None).table,
                        ticker, now, codec, None)
            == Found(articles, expiration)
  {
  }
}
