/** The query filter of internal/filter/filter.go: keep, in input order, the
    articles whose title or summary contains the query, ignoring case. */
module Filter {
  import opened Models
  import opened Text

  /** The test applied to one article, query lowered once as the source does. */
  predicate Matches(a: Article, query: string) {
    Contains(Lower(a.title), Lower(query)) || Contains(Lower(a.summary), Lower(query))
  }

  /** `xs` is `ys` with some elements left out, order kept. */
  ghost predicate IsSubsequence<T>(xs: seq<T>, ys: seq<T>)
    decreases |ys|
  {
    if |xs| == 0 then true
    else if |ys| == 0 then false
    else (xs[0] == ys[0] && IsSubsequence(xs[1..], ys[1..])) || IsSubsequence(xs, ys[1..])
  }

  /** FilterByQuery: an article is kept iff it matches, every kept article
      comes from the input, and the output is an order-preserving
      subsequence of the input. */
  function FilterByQuery(articles: seq<Article>, query: string): (r: seq<Article>)
    ensures |r| <= |articles|
    ensures forall a :: a in r <==> a in articles && Matches(a, query)
    ensures IsSubsequence(r, articles)
    decreases |articles|
  {
    if |articles| == 0 then []
    else
      var rest := FilterByQuery(articles[1..], query);
      if Matches(articles[0], query) then
        assert ([articles[0]] + rest)[1..] == rest;
        [articles[0]] + rest
      else rest
  }

  /** Appending one article to the input appends it to the output iff it
      matches: the shape of the source's loop. */
  lemma {:induction false} FilterAppend(articles: seq<Article>, a: Article, query: string)
    ensures FilterByQuery(articles + [a], query)
            == FilterByQuery(articles, query) + (if Matches(a, query) then [a] else [])
    decreases |articles|
  {
    if |articles| == 0 {
      assert articles + [a] == [a];
      assert [a][1..] == [];
    } else {
      assert (articles + [a])[1..] == articles[1..] + [a];
      FilterAppend(articles[1..], a, query);
    }
  }

  /** Every copy counts: each article occurs in the output exactly as often
      as in the input when it matches, and not at all otherwise. */
  lemma {:induction false} KeepsEveryCopy(articles: seq<Article>, query: string)
    ensures forall a :: multiset(FilterByQuery(articles, query))[a]
                        == if Matches(a, query) then multiset(articles)[a] else 0
    decreases |articles|
  {
    if |articles| > 0 {
      assert articles == [articles[0]] + articles[1..];
      KeepsEveryCopy(articles[1..], query);
    }
  }

  /** The empty query keeps every article. */
  lemma {:induction false} EmptyQueryKeepsAll(articles: seq<Article>)
    ensures FilterByQuery(articles, "") == articles
    decreases |articles|
  {
    if |articles| > 0 {
      ContainsEmpty(Lower(articles[0].title));
      EmptyQueryKeepsAll(articles[1..]);
    }
  }

  /** A query nothing matches gives the empty result. */
  lemma NoMatchIsEmpty(articles: seq<Article>, query: string)
    requires forall a :: a in articles ==> !Matches(a, query)
    ensures FilterByQuery(articles, query) == []
  {
  }

  /** Filtering twice with the same query is filtering once. */
  lemma {:induction false} Idempotent(articles: seq<Article>, query: string)
    ensures FilterByQuery(FilterByQuery(articles, query), query) == FilterByQuery(articles, query)
    decreases |articles|
  {
    if |articles| > 0 {
      Idempotent(articles[1..], query);
      var rest := FilterByQuery(articles[1..], query);
      if Matches(articles[0], query) {
        assert ([articles[0]] + rest)[1..] == rest;
      }
    }
  }

  /** Case does not matter on either side: "apple" matches a title
      containing "Apple". */
  lemma CaseInsensitive(a: Article, query: string)
    ensures Matches(a, query) <==> Matches(a, Lower(query))
    ensures Matches(a, query) <==> Matches(a.(title := Lower(a.title), summary := Lower(a.summary)), query)
  {
    LowerIdempotent(query);
    LowerIdempotent(a.title);
    LowerIdempotent(a.summary);
  }

  /** The first case of the filter's tests: "apple" matches an article
      whose title starts with "Apple". */
  lemma AppleMatchesApple()
    ensures Matches(Article("Apple Inc. Announces New Product", "", "Apple is launching a new iPhone.",
                            "", "", "", "", []), "apple")
  {
    var l := Lower("Apple Inc. Announces New Product");
    assert l[0] == 'a' && l[1] == 'p' && l[2] == 'p' && l[3] == 'l' && l[4] == 'e';
    assert Lower("apple") == "apple";
    assert l[..5] == "apple";
  }
}
