/** The AlphaVantage client: GetNewsByTicker of
    internal/news/alphavantage_queries.go and its older variant in
    internal/news/news.go. The HTTP exchange and JSON decoding are an input
    (`Exchange`); what is modelled is the error classification and the
    mapping from feed items to articles. */
module AlphaVantage {
  import opened Results
  import opened AppErrors
  import opened Models

  datatype TickerSentiment = TickerSentiment(ticker: string)

  /** One element of the response's `feed` array. */
  datatype FeedItem = FeedItem(
    title: string,
    url: string,
    summary: string,
    bannerImage: string,
    time: string,
    source: string,
    sentiment: string,
    tickerData: seq<TickerSentiment>)

  /** The request context's error at the time of a transport failure. */
  datatype ContextError = Deadline | Cancel

  /** What the HTTP exchange produced. */
  datatype Exchange =
      /** building the request failed */
    | RequestInvalid(err: Error)
      /** sending it failed; `ctx` is the context's error at that moment */
    | TransportFailed(err: Error, ctx: Option<ContextError>)
      /** a reply: its status code, and the outcome of decoding its body */
    | Replied(status: nat, decoded: Result<seq<FeedItem>, Error>)

  function ContextSentinel(c: ContextError): Sentinel {
    match c
    case Deadline => DeadlineExceeded
    case Cancel => Canceled
  }

  function DigitChar(d: nat): char
    requires d < 10
  {
    ('0' as int + d) as char
  }

  /** `%d` of a non-negative integer. */
  function Decimal(n: nat): (r: string)
    ensures |r| > 0
  {
    if n < 10 then [DigitChar(n)] else Decimal(n / 10) + [DigitChar(n % 10)]
  }

  const MissingKeyText := "missing ALPHAVANTAGE_API_KEY environment variable"

  /** One feed item as an article: banner_image becomes the image,
      time_published the publication time, the sentiment label the
      sentiment, the tickers of ticker_sentiment in order the tickers; the
      other fields are copied by name. */
  function ToArticle(item: FeedItem): (a: Article)
    ensures a.title == item.title && a.url == item.url && a.summary == item.summary
    ensures a.image == item.bannerImage && a.publishedAt == item.time
    ensures a.source == item.source && a.sentiment == item.sentiment
    ensures |a.tickers| == |item.tickerData|
    ensures forall j :: 0 <= j < |a.tickers| ==> a.tickers[j] == item.tickerData[j].ticker
  {
    var tickers := seq(|item.tickerData|, j requires 0 <= j < |item.tickerData| => item.tickerData[j].ticker);
    Article(item.title, item.url, item.summary, item.bannerImage, item.time, item.source, item.sentiment, tickers)
  }

  /** One article per feed item, in feed order. */
  function ToArticles(feed: seq<FeedItem>): (r: seq<Article>)
    ensures |r| == |feed|
    ensures forall i :: 0 <= i < |feed| ==> r[i] == ToArticle(feed[i])
  {
    seq(|feed|, i requires 0 <= i < |feed| => ToArticle(feed[i]))
  }

  /** GetNewsByTicker (alphavantage_queries.go). The ticker only enters the
      request URL, which the exchange stands for. */
  function GetNewsByTicker(apiKey: string, ticker: string, exchange: Exchange): (r: Result<seq<Article>, Error>)
    ensures apiKey == "" ==> r.Err? && Is(r.error, Configuration)
    ensures apiKey != "" && exchange.RequestInvalid? ==> r.Err? && Is(r.error, ServiceUnavailable)
    ensures apiKey != "" && exchange.TransportFailed? ==>
      r.Err? && (if exchange.ctx.Some? then r.error == Sentinel(ContextSentinel(exchange.ctx.value))
                 else Is(r.error, ServiceUnavailable))
    ensures apiKey != "" && exchange.Replied? && exchange.status != 200 ==>
      r.Err? && Is(r.error, ServiceUnavailable)
    ensures apiKey != "" && exchange.Replied? && exchange.status == 200 && exchange.decoded.Err? ==>
      r.Err? && Is(r.error, Internal)
    ensures apiKey != "" && exchange.Replied? && exchange.status == 200 && exchange.decoded == Ok([]) ==>
      r == Err(Sentinel(NotFound))
    ensures r.Ok? <==>
      apiKey != "" && exchange.Replied? && exchange.status == 200 && exchange.decoded.Ok? && |exchange.decoded.value| > 0
    ensures r.Ok? ==> r.value == ToArticles(exchange.decoded.value)
  {
    if apiKey == "" then Err(Wrapped("", Sentinel(Configuration), ": " + MissingKeyText))
    else match exchange
      case RequestInvalid(e) =>
        Err(Wrapped("", Sentinel(ServiceUnavailable), ": error creating AlphaVantage request: " + Text(e)))
      case TransportFailed(e, ctx) =>
        if ctx.Some? then Err(Sentinel(ContextSentinel(ctx.value)))
        else Err(Wrapped("", Sentinel(ServiceUnavailable), ": error resqueting AlphaVantage: " + Text(e)))
      case Replied(status, decoded) =>
        if status != 200 then
          Err(Wrapped("", Sentinel(ServiceUnavailable), ": Alphavantage API error: status code " + Decimal(status)))
        else match decoded
          case Err(e) => Err(Wrapped("", Sentinel(Internal), ": error decoding API response: " + Text(e)))
          case Ok(feed) => if |feed| == 0 then Err(Sentinel(NotFound)) else Ok(ToArticles(feed))
  }

  /** GetNewsByTicker of news.go, the older variant: no context, no
      sentinels, and an empty feed is an empty list rather than an error. */
  function LegacyGetNewsByTicker(apiKey: string, ticker: string, exchange: Exchange): (r: Result<seq<Article>, Error>)
    ensures apiKey == "" ==> r == Err(Message(MissingKeyText))
    ensures apiKey != "" && exchange.Replied? && exchange.status != 200 ==> r.Err? && r.error.Message?
    ensures apiKey != "" && exchange.Replied? && exchange.status == 200 && exchange.decoded.Err? ==>
      r == Err(Wrapped("error decoding API response: ", exchange.decoded.error, ""))
    ensures r.Ok? <==> apiKey != "" && exchange.Replied? && exchange.status == 200 && exchange.decoded.Ok?
    ensures r.Ok? ==> r.value == ToArticles(exchange.decoded.value)
  {
    if apiKey == "" then Err(Message(MissingKeyText))
    else match exchange
      case RequestInvalid(e) => Err(Wrapped("error resqueting AlphaVantage: ", e, ""))
      case TransportFailed(e, _) => Err(Wrapped("error resqueting AlphaVantage: ", e, ""))
      case Replied(status, decoded) =>
        if status != 200 then Err(Message("API error: status code " + Decimal(status)))
        else match decoded
          case Err(e) => Err(Wrapped("error decoding API response: ", e, ""))
          case Ok(feed) => Ok(ToArticles(feed))
  }

  /** Without a key no exchange is looked at: the answer is the same
      whatever the network would have done. */
  lemma NoRequestWithoutKey(ticker: string, x: Exchange, y: Exchange)
    ensures GetNewsByTicker("", ticker, x) == GetNewsByTicker("", ticker, y)
    ensures LegacyGetNewsByTicker("", ticker, x) == LegacyGetNewsByTicker("", ticker, y)
  {
  }

  /** The two variants return the same articles for every non-empty feed and
      differ exactly on the empty feed: NotFound against an empty list. */
  lemma VariantsAgreeOnNonEmptyFeeds(apiKey: string, ticker: string, exchange: Exchange)
    requires apiKey != "" && exchange.Replied? && exchange.status == 200 && exchange.decoded.Ok?
    ensures |exchange.decoded.value| > 0 ==>
      GetNewsByTicker(apiKey, ticker, exchange) == LegacyGetNewsByTicker(apiKey, ticker, exchange)
    ensures |exchange.decoded.value| == 0 ==>
      GetNewsByTicker(apiKey, ticker, exchange) == Err(Sentinel(NotFound))
      && LegacyGetNewsByTicker(apiKey, ticker, exchange) == Ok([])
  {
  }
}
