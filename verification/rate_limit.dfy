/** The rate-limiting front of every API route: the client key the limiters
    count by, the limiter configuration and its defaults, and how the
    callback results of the middlewares combine into pass or reject. The
    limiters' own counting and delaying live in libraries outside this model;
    each one is represented only by the value it hands to its callback. */
module RateLimit {
  import opened Wrappers

  /** The address sources of an incoming request, each possibly absent. */
  datatype ClientAddress = ClientAddress(
    ip: Option<string>,
    forwardedFor: Option<string>,   // the `x-forwarded-for` header
    realIp: Option<string>,         // the `x-real-ip` header
    remoteAddress: Option<string>)  // the socket's remote address

  /** JavaScript truthiness of an optional string: present and non-empty. */
  predicate Truthy(v: Option<string>) {
    v.Some? && v.value != ""
  }

  /** The address sources in priority order. */
  function Candidates(a: ClientAddress): seq<Option<string>> {
    [a.ip, a.forwardedFor, a.realIp, a.remoteAddress]
  }

  /** `key` is the source at position k: every earlier source is falsy, and
      unless k is the last position the source itself is truthy. */
  predicate ChosenAt(cs: seq<Option<string>>, k: int, key: Option<string>) {
    && 0 <= k < |cs|
    && key == cs[k]
    && (forall j :: 0 <= j < k ==> !Truthy(cs[j]))
    && (k < |cs| - 1 ==> Truthy(key))
  }

  /** The key the limiters count by: the first truthy source among the ip,
      `x-forwarded-for` and `x-real-ip`, and otherwise the remote address as
      it is, even when that is absent or empty. */
  function GetIP(a: ClientAddress): (key: Option<string>)
    ensures exists k :: ChosenAt(Candidates(a), k, key)
    ensures Truthy(key) <==> exists j :: 0 <= j < |Candidates(a)| && Truthy(Candidates(a)[j])
  {
    var cs := Candidates(a);
    if Truthy(a.ip) then assert ChosenAt(cs, 0, a.ip); a.ip
    else if Truthy(a.forwardedFor) then assert ChosenAt(cs, 1, a.forwardedFor); a.forwardedFor
    else if Truthy(a.realIp) then assert ChosenAt(cs, 2, a.realIp); a.realIp
    else assert ChosenAt(cs, 3, a.remoteAddress); a.remoteAddress
  }

  /** JavaScript's `Math.round(a / b)` for a positive divisor: the integer
      nearest to the quotient, a tie rounded up. */
  function RoundQuotient(a: int, b: int): (r: int)
    requires b > 0
    ensures b * (2 * r - 1) <= 2 * a < b * (2 * r + 1)
  {
    var q := (2 * a + b) / (2 * b);
    var m := (2 * a + b) % (2 * b);
    assert 2 * a + b == 2 * b * q + m && 0 <= m < 2 * b;
    assert b * (2 * q - 1) == 2 * b * q - b && b * (2 * q + 1) == 2 * b * q + b;
    q
  }

  /** Limiter options; an absent field takes its default. */
  datatype Options = Options(
    limit: Option<int>,
    windowMs: Option<int>,
    delayAfter: Option<int>,
    delayMs: Option<int>)

  /** No options given at all. */
  const NO_OPTIONS: Options := Options(None, None, None, None)

  const DEFAULT_LIMIT: int := 15
  const DEFAULT_WINDOW_MS: int := 60 * 1000
  const DEFAULT_DELAY_AFTER: int := RoundQuotient(20, 2)
  const DEFAULT_DELAY_MS: int := 1000

  /** Which request key a limiter counts by; `ClientIP` is `GetIP`. */
  datatype KeyGenerator = ClientIP

  /** The two limiter configurations: a progressive slow-down and a hard
      fixed-window limit. */
  datatype Middleware =
    | SlowDown(keyGenerator: KeyGenerator, windowMs: int, delayAfter: int, delayMs: int)
    | RateLimiter(keyGenerator: KeyGenerator, windowMs: int, max: int)

  /** The middleware list: the slow-down first, then the limiter, both keyed
      by the client address and sharing one window; each option is the one
      given or its default. */
  function GetRateLimitMiddlewares(opts: Options): (ms: seq<Middleware>)
    ensures |ms| == 2 && ms[0].SlowDown? && ms[1].RateLimiter?
    ensures forall i :: 0 <= i < |ms| ==> ms[i].keyGenerator == ClientIP
    ensures ms[0].windowMs == ms[1].windowMs == opts.windowMs.GetOr(DEFAULT_WINDOW_MS)
    ensures ms[0].delayAfter == opts.delayAfter.GetOr(DEFAULT_DELAY_AFTER)
    ensures ms[0].delayMs == opts.delayMs.GetOr(DEFAULT_DELAY_MS)
    ensures ms[1].max == opts.limit.GetOr(DEFAULT_LIMIT)
  {
    var windowMs := opts.windowMs.GetOr(DEFAULT_WINDOW_MS);
    [ SlowDown(ClientIP, windowMs, opts.delayAfter.GetOr(DEFAULT_DELAY_AFTER), opts.delayMs.GetOr(DEFAULT_DELAY_MS)),
      RateLimiter(ClientIP, windowMs, opts.limit.GetOr(DEFAULT_LIMIT)) ]
  }

  /** The middlewares every route applies: the defaults. */
  const MIDDLEWARES: seq<Middleware> := GetRateLimitMiddlewares(NO_OPTIONS)

  /** With no options: one-minute window, ten undelayed requests, one second
      of delay per request after that, and rejection after fifteen. */
  lemma DefaultMiddlewares()
    ensures MIDDLEWARES == [SlowDown(ClientIP, 60000, 10, 1000), RateLimiter(ClientIP, 60000, 15)]
    ensures 0 < MIDDLEWARES[0].delayAfter < MIDDLEWARES[1].max
  {
    assert DEFAULT_DELAY_AFTER == 10 by {
      var r := RoundQuotient(20, 2);
      assert 2 * (2 * r - 1) <= 40 < 2 * (2 * r + 1);
    }
  }

  /** The value a middleware passes to its callback: an `Error`, or anything else. */
  datatype CallbackResult = ErrorValue(message: string) | NonErrorValue

  /** How a promise settled. */
  datatype Settled = Resolved | Rejected(reason: string)

  /** One middleware wrapped as a promise: rejected exactly when its callback
      receives an `Error`. */
  function ApplyMiddleware(result: CallbackResult): (p: Settled)
    ensures p.Rejected? <==> result.ErrorValue?
    ensures p.Rejected? ==> p.reason == result.message
  {
    match result
    case ErrorValue(m) => Rejected(m)
    case NonErrorValue => Resolved
  }

  /** All middlewares awaited together: rejected exactly when at least one of
      them is, with the reason of one that is. `results[i]` is what the i-th
      middleware passed to its callback. */
  function ApplyRateLimit(results: seq<CallbackResult>): (p: Settled)
    ensures p.Rejected? <==> exists i :: 0 <= i < |results| && ApplyMiddleware(results[i]).Rejected?
    ensures p.Rejected? ==> exists i :: 0 <= i < |results| && results[i] == ErrorValue(p.reason)
    decreases |results|
  {
    if results == [] then Resolved
    else match ApplyMiddleware(results[0])
      case Rejected(m) => Rejected(m)
      case Resolved =>
        var rest := ApplyRateLimit(results[1..]);
        assert forall i :: 1 <= i < |results| ==> results[i] == results[1..][i - 1];
        rest
  }

  /** Whether a request is turned away by the limiters. */
  predicate Limited(results: seq<CallbackResult>) {
    ApplyRateLimit(results).Rejected?
  }
}
