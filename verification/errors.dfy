/** Go error values as the news service builds them: the sentinels of
    internal/apperrors/errors.go and of the `context` package, wrapping with
    a single `%w` in `fmt.Errorf`, and plain messages. `Is` is `errors.Is`.
    Every error therefore has one wrap chain; errors joining several errors
    (`errors.Join`, two `%w`) are not represented. */
module AppErrors {

  /** The error values a caller detects by identity. */
  datatype Sentinel =
    | NotFound
    | ServiceUnavailable
    | Internal
    | Configuration
    | DeadlineExceeded   // context.DeadlineExceeded
    | Canceled           // context.Canceled

  datatype Error =
    | Sentinel(kind: Sentinel)
      /** `fmt.Errorf(prefix + "%w" + suffix, inner)`: the text embeds the
          inner error's text and `errors.Is` sees through it. */
    | Wrapped(prefix: string, inner: Error, suffix: string)
      /** `errors.New(text)`, or `fmt.Errorf` without `%w`. */
    | Message(text: string)

  function SentinelText(s: Sentinel): string {
    match s
    case NotFound => "resource not found"
    case ServiceUnavailable => "external service unavailable"
    case Internal => "internal processing error"
    case Configuration => "application configuration error"
    case DeadlineExceeded => "context deadline exceeded"
    case Canceled => "context canceled"
  }

  /** What `err.Error()` returns. */
  function Text(e: Error): string {
    match e
    case Sentinel(s) => SentinelText(s)
    case Wrapped(prefix, inner, suffix) => prefix + Text(inner) + suffix
    case Message(text) => text
  }

  /** `errors.Is(e, s)`: some link of the wrap chain is the sentinel. */
  predicate Is(e: Error, s: Sentinel) {
    match e
    case Sentinel(k) => k == s
    case Wrapped(_, inner, _) => Is(inner, s)
    case Message(_) => false
  }

  /** An error matches at most one sentinel, because its wrap chain is a
      single chain. */
  lemma {:induction false} IsAtMostOne(e: Error, s: Sentinel, t: Sentinel)
    requires Is(e, s) && Is(e, t)
    ensures s == t
  {
    match e
    case Sentinel(_) =>
    case Wrapped(_, inner, _) => IsAtMostOne(inner, s, t);
  }

  /** Once an error is known to match `s`, `s` is the only sentinel it matches. */
  lemma {:induction false} IsOnly(e: Error, s: Sentinel)
    requires Is(e, s)
    ensures forall t :: Is(e, t) <==> t == s
  {
    forall t | Is(e, t)
      ensures t == s
    {
      IsAtMostOne(e, s, t);
    }
  }

  /** Wrapping with `%w` keeps every sentinel detectable and keeps the inner text. */
  lemma WrapPreservesIdentity(prefix: string, e: Error, suffix: string)
    ensures forall s :: Is(Wrapped(prefix, e, suffix), s) <==> Is(e, s)
    ensures Text(Wrapped(prefix, e, suffix))[|prefix|..|prefix| + |Text(e)|] == Text(e)
  {
  }
}
