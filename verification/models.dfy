/** The article record shared by every layer (internal/models/article-model.go;
    news.Article and stocks.NewsArticle have the same fields) and the byte
    codec the durable tier stores. */
module Models {
  import opened Results
  import opened AppErrors

  datatype Article = Article(
    title: string,
    url: string,
    summary: string,
    image: string,        // JSON "banner_image"
    publishedAt: string,  // JSON "time_published", never parsed
    source: string,
    sentiment: string,    // JSON "overall_sentiment_label"
    tickers: seq<string>)

  newtype byte = x: int | 0 <= x < 256

  type Bytes = seq<byte>

  /** MarshalArticles / UnmarshalArticles. Both are thin wrappers over
      `encoding/json`; the model takes them as given and never looks inside. */
  datatype Codec = Codec(
    marshal: seq<Article> -> Result<Bytes, Error>,
    unmarshal: Bytes -> Result<seq<Article>, Error>)

  /** The round-trip law the codec is trusted to satisfy: whatever marshals
      unmarshals back to itself. Lemmas that need it take it as a hypothesis. */
  ghost predicate RoundTrips(codec: Codec) {
    forall articles :: codec.marshal(articles).Ok? ==>
      codec.unmarshal(codec.marshal(articles).value) == Ok(articles)
  }
}
