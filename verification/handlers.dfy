/** The decision logic of handleNews (internal/api/handlers.go): ticker
    validation, the provider call, the mapping of errors to statuses and
    messages, and the summarize and filter branches, as a pure function from
    the request and the outcomes of the provider and of the summarizer to
    the response. */
module Api {
  import opened Results
  import opened AppErrors
  import opened Models
  import Filter
  import MultiFetcher

  /** ai.SummarizeArticles: the summary of a text, or an error. */
  type Summarizer = string -> Result<string, Error>

  /** The JSON body: `{"error": ...}`, `{"ticker", "news"}` or `{"ticker", "summary"}`. */
  datatype Body =
    | ErrorBody(error: string)
    | NewsBody(ticker: string, news: seq<Article>)
    | SummaryBody(ticker: string, summary: string)

  /** The status and body, and which collaborators the handler consulted:
      whether the provider was called, and the text handed to the summarizer. */
  datatype Response = Response(status: nat, body: Body, providerCalled: bool, aiInput: Option<string>)

  datatype Failure = Failure(status: nat, message: string)

  const StatusOK: nat := 200
  const StatusBadRequest: nat := 400
  const StatusNotFound: nat := 404
  const StatusRequestTimeout: nat := 408
  const StatusInternalServerError: nat := 500
  const StatusServiceUnavailable: nat := 503
  const StatusGatewayTimeout: nat := 504

  /** `^[A-Z]{1,10}$`: one to ten characters, all upper-case ASCII letters. */
  predicate ValidTicker(ticker: string) {
    1 <= |ticker| <= 10 && forall i :: 0 <= i < |ticker| ==> 'A' <= ticker[i] <= 'Z'
  }

  /** `c.DefaultQuery("summarize", "false") == "true"`. */
  predicate SummarizeRequested(param: Option<string>) {
    param.GetOr("false") == "true"
  }

  /** The summarizer's input: `Title + ":" + Summary + "\n"` per article, in order. */
  function Digest(articles: seq<Article>): string
    decreases |articles|
  {
    if |articles| == 0 then ""
    else articles[0].title + ":" + articles[0].summary + "\n" + Digest(articles[1..])
  }

  /** The digest is empty exactly when there are no articles. */
  lemma DigestEmptyIff(articles: seq<Article>)
    ensures Digest(articles) == "" <==> |articles| == 0
  {
  }

  /** The digest of a concatenation is the concatenation of the digests: each
      article contributes its own line, in order. */
  lemma {:induction false} DigestAppend(xs: seq<Article>, ys: seq<Article>)
    ensures Digest(xs + ys) == Digest(xs) + Digest(ys)
    decreases |xs|
  {
    if |xs| == 0 {
      assert xs + ys == ys;
    } else {
      assert (xs + ys)[1..] == xs[1..] + ys;
      DigestAppend(xs[1..], ys);
    }
  }

  /** A provider error, checked against the sentinels in priority order. */
  function FetchFailure(e: Error): (f: Failure)
    ensures Is(e, DeadlineExceeded) ==> f == Failure(StatusGatewayTimeout, "Request timed out.")
    ensures !Is(e, DeadlineExceeded) && Is(e, Canceled) ==> f == Failure(StatusRequestTimeout, "Request canceled.")
    ensures !Is(e, DeadlineExceeded) && !Is(e, Canceled) && Is(e, NotFound) ==>
      f == Failure(StatusNotFound, "No news found for the specified ticker.")
    ensures !Is(e, DeadlineExceeded) && !Is(e, Canceled) && !Is(e, NotFound) && Is(e, ServiceUnavailable) ==>
      f == Failure(StatusServiceUnavailable, "External service unavailable.")
    ensures !Is(e, DeadlineExceeded) && !Is(e, Canceled) && !Is(e, NotFound) && !Is(e, ServiceUnavailable)
            && Is(e, Internal) ==>
      f == Failure(StatusInternalServerError, "Internal server error.")
    ensures !Is(e, DeadlineExceeded) && !Is(e, Canceled) && !Is(e, NotFound) && !Is(e, ServiceUnavailable)
            && !Is(e, Internal) ==>
      f == Failure(StatusInternalServerError, "Unknown error.")
  {
    if Is(e, DeadlineExceeded) then Failure(StatusGatewayTimeout, "Request timed out.")
    else if Is(e, Canceled) then Failure(StatusRequestTimeout, "Request canceled.")
    else if Is(e, NotFound) then Failure(StatusNotFound, "No news found for the specified ticker.")
    else if Is(e, ServiceUnavailable) then Failure(StatusServiceUnavailable, "External service unavailable.")
    else if Is(e, Internal) then Failure(StatusInternalServerError, "Internal server error.")
    else Failure(StatusInternalServerError, "Unknown error.")
  }

  /** A summarizer error: the context errors, otherwise 500 with the error's own text. */
  function SummaryFailure(e: Error): (f: Failure)
    ensures Is(e, DeadlineExceeded) ==> f == Failure(StatusGatewayTimeout, "Request timed out.")
    ensures !Is(e, DeadlineExceeded) && Is(e, Canceled) ==> f == Failure(StatusRequestTimeout, "Request canceled.")
    ensures !Is(e, DeadlineExceeded) && !Is(e, Canceled) ==> f == Failure(StatusInternalServerError, Text(e))
  {
    if Is(e, DeadlineExceeded) then Failure(StatusGatewayTimeout, "Request timed out.")
    else if Is(e, Canceled) then Failure(StatusRequestTimeout, "Request canceled.")
    else Failure(StatusInternalServerError, Text(e))
  }

  /** A provider error maps by the one sentinel it carries, whatever the
      order of the checks: each of the following holds on its own. */
  lemma {:induction false} FetchFailureDeadline(e: Error)
    requires Is(e, DeadlineExceeded)
    ensures FetchFailure(e) == Failure(StatusGatewayTimeout, "Request timed out.")
  {
    IsOnly(e, DeadlineExceeded);
  }

  lemma {:induction false} FetchFailureCanceled(e: Error)
    requires Is(e, Canceled)
    ensures FetchFailure(e) == Failure(StatusRequestTimeout, "Request canceled.")
  {
    IsOnly(e, Canceled);
  }

  lemma {:induction false} FetchFailureNotFound(e: Error)
    requires Is(e, NotFound)
    ensures FetchFailure(e) == Failure(StatusNotFound, "No news found for the specified ticker.")
  {
    IsOnly(e, NotFound);
  }

  lemma {:induction false} FetchFailureUnavailable(e: Error)
    requires Is(e, ServiceUnavailable)
    ensures FetchFailure(e) == Failure(StatusServiceUnavailable, "External service unavailable.")
  {
    IsOnly(e, ServiceUnavailable);
  }

  lemma {:induction false} FetchFailureInternal(e: Error)
    requires Is(e, Internal)
    ensures FetchFailure(e) == Failure(StatusInternalServerError, "Internal server error.")
  {
    IsOnly(e, Internal);
  }

  /** A wrapped configuration error (a missing API key) is not one the
      handler names: it falls to "Unknown error.". */
  lemma {:induction false} FetchFailureConfiguration(e: Error)
    requires Is(e, Configuration)
    ensures FetchFailure(e) == Failure(StatusInternalServerError, "Unknown error.")
  {
    IsOnly(e, Configuration);
  }

  /** A summarizer error carrying a context sentinel maps by that sentinel;
      any other summarizer error keeps its own text. */
  lemma {:induction false} SummaryFailureDeadline(e: Error)
    requires Is(e, DeadlineExceeded)
    ensures SummaryFailure(e) == Failure(StatusGatewayTimeout, "Request timed out.")
  {
    IsOnly(e, DeadlineExceeded);
  }

  lemma {:induction false} SummaryFailureCanceled(e: Error)
    requires Is(e, Canceled)
    ensures SummaryFailure(e) == Failure(StatusRequestTimeout, "Request canceled.")
  {
    IsOnly(e, Canceled);
  }

  lemma {:induction false} SummaryFailureOther(e: Error)
    requires Is(e, NotFound) || Is(e, ServiceUnavailable) || Is(e, Internal) || Is(e, Configuration)
    ensures SummaryFailure(e) == Failure(StatusInternalServerError, Text(e))
  {
    if Is(e, NotFound) { IsOnly(e, NotFound); }
    else if Is(e, ServiceUnavailable) { IsOnly(e, ServiceUnavailable); }
    else if Is(e, Internal) { IsOnly(e, Internal); }
    else { IsOnly(e, Configuration); }
  }

  /** `^[A-Z]{1,10}$` on the boundary cases: length one and ten pass, the
      empty ticker, eleven letters, lower case and digits fail. */
  lemma ValidTickerBoundaries()
    ensures ValidTicker("A") && ValidTicker("AAPL") && ValidTicker("ABCDEFGHIJ")
    ensures !ValidTicker("") && !ValidTicker("ABCDEFGHIJK")
    ensures !ValidTicker("aapl") && !ValidTicker("BRK1")
  {
    assert "aapl"[0] == 'a';
    assert "BRK1"[3] == '1';
  }

  /** handleNews for the path ticker, the `q` parameter (empty when absent),
      the raw `summarize` parameter, the provider and the summarizer. */
  function HandleNews(ticker: string, query: string, summarize: Option<string>,
                      fetch: MultiFetcher.Provider, ai: Summarizer): (r: Response)
    ensures r.status == StatusBadRequest <==> !ValidTicker(ticker)
    ensures !ValidTicker(ticker) ==> r == Response(StatusBadRequest, ErrorBody("Invalid ticker format."), false, None)
    ensures ValidTicker(ticker) ==> r.providerCalled
    ensures ValidTicker(ticker) && fetch(ticker).Err? ==>
      var f := FetchFailure(fetch(ticker).error);
      r == Response(f.status, ErrorBody(f.message), true, None)
    ensures ValidTicker(ticker) && fetch(ticker).Ok? && !SummarizeRequested(summarize) ==>
      r == Response(StatusOK, NewsBody(ticker, Filter.FilterByQuery(fetch(ticker).value, query)), true, None)
    ensures ValidTicker(ticker) && fetch(ticker).Ok? && SummarizeRequested(summarize) && |fetch(ticker).value| == 0 ==>
      r == Response(StatusOK, SummaryBody(ticker, ""), true, None)
    ensures ValidTicker(ticker) && fetch(ticker).Ok? && SummarizeRequested(summarize) && |fetch(ticker).value| > 0 ==>
      && r.aiInput == Some(Digest(fetch(ticker).value))
      && (ai(Digest(fetch(ticker).value)).Ok? ==>
            r.status == StatusOK && r.body == SummaryBody(ticker, ai(Digest(fetch(ticker).value)).value))
      && (ai(Digest(fetch(ticker).value)).Err? ==>
            var f := SummaryFailure(ai(Digest(fetch(ticker).value)).error);
            r.status == f.status && r.body == ErrorBody(f.message))
  {
    if !ValidTicker(ticker) then
      Response(StatusBadRequest, ErrorBody("Invalid ticker format."), false, None)
    else match fetch(ticker)
      case Err(e) =>
        var f := FetchFailure(e);
        Response(f.status, ErrorBody(f.message), true, None)
      case Ok(articles) =>
        if SummarizeRequested(summarize) then
          var allArticles := Digest(articles);
          DigestEmptyIff(articles);
          if allArticles == "" then Response(StatusOK, SummaryBody(ticker, ""), true, None)
          else match ai(allArticles)
            case Err(e) =>
              var f := SummaryFailure(e);
              Response(f.status, ErrorBody(f.message), true, Some(allArticles))
            case Ok(summary) => Response(StatusOK, SummaryBody(ticker, summary), true, Some(allArticles))
        else
          var news := if query != "" then Filter.FilterByQuery(articles, query) else articles;
          Filter.EmptyQueryKeepsAll(articles);
          Response(StatusOK, NewsBody(ticker, news), true, None)
  }

  /** Summarize takes precedence over `q`: the query never changes a
      summarize response. */
  lemma SummarizeIgnoresQuery(ticker: string, q1: string, q2: string, fetch: MultiFetcher.Provider, ai: Summarizer)
    ensures HandleNews(ticker, q1, Some("true"), fetch, ai) == HandleNews(ticker, q2, Some("true"), fetch, ai)
  {
  }

  /** Only the exact value "true" turns summarizing on. */
  lemma SummarizeFlag()
    ensures SummarizeRequested(Some("true"))
    ensures !SummarizeRequested(None) && !SummarizeRequested(Some("TRUE")) && !SummarizeRequested(Some("1"))
  {
  }

  /** The handler's test table, for the cases that need no string search. */
  lemma HandlerTestCases(fetch: MultiFetcher.Provider, ai: Summarizer, sample: seq<Article>)
    ensures HandleNews("TEST!", "", None, fetch, ai)
            == Response(StatusBadRequest, ErrorBody("Invalid ticker format."), false, None)
    ensures fetch("TEST") == Ok(sample) ==>
      HandleNews("TEST", "", None, fetch, ai) == Response(StatusOK, NewsBody("TEST", sample), true, None)
    ensures fetch("UNKNOWN") == Err(Sentinel(NotFound)) ==>
      HandleNews("UNKNOWN", "", None, fetch, ai)
      == Response(StatusNotFound, ErrorBody("No news found for the specified ticker."), true, None)
    ensures fetch("TEST") == Err(Sentinel(ServiceUnavailable)) ==>
      HandleNews("TEST", "", None, fetch, ai)
      == Response(StatusServiceUnavailable, ErrorBody("External service unavailable."), true, None)
    ensures fetch("TEST") == Err(Message("something unexpected happened")) ==>
      HandleNews("TEST", "", None, fetch, ai)
      == Response(StatusInternalServerError, ErrorBody("Unknown error."), true, None)
  {
    assert !ValidTicker("TEST!") by { assert "TEST!"[4] == '!'; }
    assert ValidTicker("TEST");
    assert ValidTicker("UNKNOWN");
    Filter.EmptyQueryKeepsAll(sample);
  }
}
