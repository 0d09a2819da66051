/** The durable tier's contract (internal/storage/storage.go) at the byte
    level the cache and the Postgres backend use: a table of one record per
    ticker, an upsert, a keyed read and an expiry sweep. */
module Storage {
  import opened Results
  import opened AppErrors
  import opened Models

  /** One row of the `articles` table; the ticker is the primary key. */
  datatype Record = Record(data: Bytes, expiration: int, createdAt: int)

  type Table = map<string, Record>

  /** The 4-tuple `(payload, expiration, found, err)` of GetArticles in its
      three legal shapes: absence and failure are distinct outcomes. */
  datatype Lookup<T> = Found(payload: T, expiration: int) | Absent | Failed(err: Error)

  /** A table after a statement, with the error the statement returned. */
  datatype Written = Written(table: Table, err: Option<Error>)

  /** Upsert on the primary key: the ticker's row becomes exactly the new
      record and no other row changes. */
  function Upsert(t: Table, ticker: string, data: Bytes, expiration: int, now: int): (r: Table)
    ensures r.Keys == t.Keys + {ticker}
    ensures r[ticker] == Record(data, expiration, now)
    ensures forall k :: k in t && k != ticker ==> r[k] == t[k]
  {
    t[ticker := Record(data, expiration, now)]
  }

  /** A keyed write as either backend performs it (Postgres's
      `INSERT ... ON CONFLICT(ticker) DO UPDATE`, SQLite's `INSERT OR
      REPLACE`): on success the ticker's row holds the caller's payload and
      expiration with `created_at` = now; a driver error leaves the table as
      it was and is returned. */
  function Write(t: Table, ticker: string, data: Bytes, expiration: int, now: int,
                 fault: Option<Error>): (r: Written)
    ensures r.err == fault
    ensures fault.Some? ==> r.table == t
    ensures fault.None? ==> r.table.Keys == t.Keys + {ticker}
    ensures fault.None? ==> r.table[ticker] == Record(data, expiration, now)
    ensures fault.None? ==> forall k :: k in t && k != ticker ==> r.table[k] == t[k]
  {
    if fault.Some? then Written(t, fault)
    else Written(Upsert(t, ticker, data, expiration, now), None)
  }

  /** The rows a sweep keeps: those for which `live` holds of their expiration. */
  function Keep(t: Table, live: int -> bool): (r: Table)
    ensures forall k :: k in r <==> k in t && live(t[k].expiration)
    ensures forall k :: k in r ==> r[k] == t[k]
  {
    map k | k in t && live(t[k].expiration) :: t[k]
  }

  /** storage.go:15's promise about a read at `now`: what it finds is the
      ticker's row and that row has not expired. */
  ghost predicate ReadsOnlyLive(read: Lookup<Bytes>, t: Table, ticker: string, now: int) {
    read.Found? ==>
      ticker in t && read == Found(t[ticker].data, t[ticker].expiration) && now < read.expiration
  }

  /** storage.go:18's promise about a sweep at `now`: expired rows go, every
      unexpired row stays as it was. */
  ghost predicate SweepsExactlyExpired(before: Table, after: Table, now: int) {
    && (forall k :: k in after ==> k in before && after[k] == before[k])
    && (forall k :: k in before && before[k].expiration > now ==> k in after)
    && (forall k :: k in after ==> after[k].expiration >= now)
  }
}
