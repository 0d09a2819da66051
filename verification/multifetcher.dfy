/** MultiFetcher.GetNewsByTicker (internal/news/multi-fetcher.go): ask each
    provider in order, concatenate their lists, stop at the first error. */
module MultiFetcher {
  import opened Results
  import opened AppErrors
  import opened Models

  /** A provider's answer for a ticker (internal/news/provider.go). */
  type Provider = string -> Result<seq<Article>, Error>

  /** All providers before `n` succeed for the ticker. */
  predicate AllOk(providers: seq<Provider>, ticker: string, n: nat)
    requires n <= |providers|
  {
    forall i :: 0 <= i < n ==> providers[i](ticker).Ok?
  }

  /** The lists of the first n providers, concatenated in provider order. */
  function Gathered(providers: seq<Provider>, ticker: string, n: nat): seq<Article>
    requires n <= |providers| && AllOk(providers, ticker, n)
  {
    if n == 0 then [] else Gathered(providers, ticker, n - 1) + providers[n - 1](ticker).value
  }

  /** The sum of the lengths of the first n providers' lists. */
  function TotalLength(providers: seq<Provider>, ticker: string, n: nat): nat
    requires n <= |providers| && AllOk(providers, ticker, n)
  {
    if n == 0 then 0 else TotalLength(providers, ticker, n - 1) + |providers[n - 1](ticker).value|
  }

  lemma {:induction false} GatheredLength(providers: seq<Provider>, ticker: string, n: nat)
    requires n <= |providers| && AllOk(providers, ticker, n)
    ensures |Gathered(providers, ticker, n)| == TotalLength(providers, ticker, n)
  {
    if n > 0 {
      GatheredLength(providers, ticker, n - 1);
    }
  }

  /** `calls` is how many providers were asked. On success every provider
      was asked, each succeeded and the result is their lists in order; on
      failure the last provider asked is the first that failed, its error is
      returned unchanged and no later provider is asked. */
  method GetNewsByTicker(providers: seq<Provider>, ticker: string) returns (result: Result<seq<Article>, Error>, calls: nat)
    ensures calls <= |providers|
    ensures result.Ok? <==> AllOk(providers, ticker, |providers|)
    ensures result.Ok? ==> calls == |providers| && result.value == Gathered(providers, ticker, |providers|)
    ensures result.Ok? ==> |result.value| == TotalLength(providers, ticker, |providers|)
    ensures result.Err? ==>
      && 0 < calls
      && AllOk(providers, ticker, calls - 1)
      && providers[calls - 1](ticker) == Err(result.error)
    ensures |providers| == 0 ==> result == Ok([]) && calls == 0
  {
    var all: seq<Article> := [];
    var i := 0;
    while i < |providers|
      invariant 0 <= i <= |providers|
      invariant AllOk(providers, ticker, i)
      invariant all == Gathered(providers, ticker, i)
    {
      var answer := providers[i](ticker);
      if answer.Err? {
        return Err(answer.error), i + 1;
      }
      all := all + answer.value;
      i := i + 1;
    }
    GatheredLength(providers, ticker, |providers|);
    return Ok(all), |providers|;
  }
}
