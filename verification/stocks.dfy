/** The copy of the query filter in internal/stocks/alphavantage.go, modelled
    as the loop it is and proved to compute the same list as
    internal/filter/filter.go's FilterByQuery. */
module Stocks {
  import opened Models
  import opened Text
  import Filter

  method FilterByQuery(articles: seq<Article>, query: string) returns (result: seq<Article>)
    ensures result == Filter.FilterByQuery(articles, query)
    ensures query == "" ==> result == articles
  {
    result := [];
    var q := Lower(query);
    var i := 0;
    while i < |articles|
      invariant 0 <= i <= |articles|
      invariant result == Filter.FilterByQuery(articles[..i], query)
    {
      var a := articles[i];
      var keep := Contains(Lower(a.title), q) || Contains(Lower(a.summary), q);
      assert keep == Filter.Matches(a, query);
      if keep {
        result := result + [a];
      }
      Filter.FilterAppend(articles[..i], a, query);
      assert articles[..i + 1] == articles[..i] + [a];
      i := i + 1;
    }
    assert articles[..|articles|] == articles;
    if query == "" {
      Filter.EmptyQueryKeepsAll(articles);
    }
  }
}
