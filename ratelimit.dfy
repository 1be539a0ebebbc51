/**
 * The rate-limit middleware of `middleware/rate_limit.py`: requests under
 * `/api/` are counted per API key and path in a key-value store, and a
 * request whose counter has reached the limit is refused with status 429.
 * The cache is a plain map; its expiry times are not modelled.
 */
module RateLimit {
  import opened Wrappers
  import opened Text

  const ApiPrefix := "/api/"
  const ApiKeyHeader := "api-key"
  const Anonymous := "anonymous"
  const TooManyRequestsDetail := "Too many requests. Please try again later."

  // ---------------------------------------------------------------------
  // Rates
  // ---------------------------------------------------------------------

  /** Seconds per named period; an unknown name counts as a minute. */
  function PeriodSeconds(period: string): (r: nat)
    ensures period == "second" ==> r == 1
    ensures period == "minute" ==> r == 60
    ensures period == "hour" ==> r == 3600
    ensures period == "day" ==> r == 86400
    ensures period !in {"second", "hour", "day"} ==> r == 60
  {
    if period == "second" then 1
    else if period == "minute" then 60
    else if period == "hour" then 3600
    else if period == "day" then 86400
    else 60
  }

  /** `parse_rate`: "N" or "N/period" to (limit, seconds); `None` where
      Python raises, because `int` rejects N or the text has more than one `/`. */
  function ParseRate(rate: string): (r: Option<(int, nat)>)
    ensures !Contains(rate, "/") ==>
      (r.Some? <==> ParseInt(rate).Some?) && (r.Some? ==> r.value == (ParseInt(rate).value, 60))
  {
    if !Contains(rate, "/") then
      match ParseInt(rate)
      case None => None
      case Some(n) => Some((n, 60))
    else
      var parts := Split(rate, "/");
      if |parts| != 2 then None
      else
        match ParseInt(parts[0])
        case None => None
        case Some(n) => Some((n, PeriodSeconds(parts[1])))
  }

  /** The first slash of digits, a slash and a text is the one after the digits. */
  lemma SlashAfterDigits(ds: string, period: string)
    requires AllDigits(ds)
    ensures Find(ds + "/" + period, "/", 0) == Some(|ds|)
  {
    var s := ds + "/" + period;
    assert s[|ds|] == '/';
    assert s[|ds|..|ds| + 1] == "/";
    assert OccursAt(s, "/", |ds|);
    forall j: nat | j < |ds| ensures !OccursAt(s, "/", j) {
      assert s[j..j + 1][0] == s[j] == ds[j];
    }
  }

  /** A text without a slash has no slash to find. */
  lemma NoSlash(period: string)
    requires '/' !in period
    ensures Find(period, "/", 0).None?
  {
    forall j: nat ensures !OccursAt(period, "/", j) {
      if j < |period| {
        assert period[j..j + 1][0] == period[j] && period[j] in period;
      }
    }
  }

  /** Digits, a slash and a text without a slash split into the digits and the text. */
  lemma SplitAtSlash(ds: string, period: string)
    requires AllDigits(ds) && '/' !in period
    ensures Contains(ds + "/" + period, "/")
    ensures Split(ds + "/" + period, "/") == [ds, period]
  {
    var s := ds + "/" + period;
    SlashAfterDigits(ds, period);
    SplitStep(s, "/", |ds|);
    assert s[..|ds|] == ds && s[|ds| + 1..] == period;
    NoSlash(period);
    SplitWhole(period, "/");
  }

  /** A rate written as digits, a slash and a period name reads back as
      the digits' value and the period's length. */
  lemma RateDigitsRoundTrip(ds: string, period: string)
    requires |ds| > 0 && AllDigits(ds) && '/' !in period
    ensures ParseRate(ds + "/" + period) == Some((DecimalValue(ds) as int, PeriodSeconds(period)))
  {
    SplitAtSlash(ds, period);
    ParseIntDigits(ds);
  }

  /** The same for a count written out in decimal. */
  lemma RateRoundTrip(n: nat, period: string)
    requires '/' !in period
    ensures ParseRate(NatToString(n) + "/" + period) == Some((n as int, PeriodSeconds(period)))
  {
    RateDigitsRoundTrip(NatToString(n), period);
    DecimalRoundTrip(n);
  }

  /** `get_rate_limit`: the limit configured for a known key, else the global rate. */
  function GetRateLimit(apiKeys: map<string, string>, globalRate: string, apiKey: string): (r: string)
    ensures apiKey in apiKeys ==> r == apiKeys[apiKey]
    ensures apiKey !in apiKeys ==> r == globalRate
  {
    if apiKey in apiKeys then apiKeys[apiKey] else globalRate
  }

  // ---------------------------------------------------------------------
  // One request
  // ---------------------------------------------------------------------

  /** What the middleware does with a request: hand it on, refuse it, or
      fail because the configured rate does not parse. */
  datatype Outcome = Forwarded | Rejected(status: nat, detail: string) | Raised

  /** The API key a request presents, `anonymous` when it has none.  Django
      looks request headers up without regard to case; `headers` is keyed by
      the lower-cased header name, so one exact lookup of `api-key` matches. */
  function ApiKeyOf(headers: map<string, string>): string
  {
    if ApiKeyHeader in headers then headers[ApiKeyHeader] else Anonymous
  }

  /** The store key counting one API key's requests to one path. */
  function CounterKey(apiKey: string, path: string): string
  {
    "ratelimit:" + apiKey + ":" + path
  }

  /** `cache.get(key, 0)`. */
  function Count(store: map<string, int>, key: string): int
  {
    if key in store then store[key] else 0
  }

  /** The outcome of one request and the store after it. */
  function Step(store: map<string, int>, apiKeys: map<string, string>, globalRate: string,
                path: string, headers: map<string, string>): (r: (Outcome, map<string, int>))
    ensures r.0 != Forwarded ==> r.1 == store
    ensures r.0.Rejected? ==> r.0 == Rejected(429, TooManyRequestsDetail)
  {
    if !StartsWith(path, ApiPrefix) then (Forwarded, store)
    else
      var apiKey := ApiKeyOf(headers);
      var rate := GetRateLimit(apiKeys, globalRate, apiKey);
      if rate == "" then (Forwarded, store)
      else
        match ParseRate(rate)
        case None => (Raised, store)
        case Some((limit, _)) => Decision(store, CounterKey(apiKey, path), limit)
  }

  /** The limit check on one counter: refuse once it has reached the limit,
      otherwise count the request. */
  function Decision(store: map<string, int>, key: string, limit: int): (Outcome, map<string, int>)
  {
    if Count(store, key) >= limit then (Rejected(429, TooManyRequestsDetail), store)
    else (Forwarded, store[key := Count(store, key) + 1])
  }

  /** Requests outside `/api/` are handed on and leave every counter alone. */
  lemma OutsideApiPassesThrough(store: map<string, int>, apiKeys: map<string, string>, globalRate: string,
                                path: string, headers: map<string, string>)
    requires !StartsWith(path, ApiPrefix)
    ensures Step(store, apiKeys, globalRate, path, headers) == (Forwarded, store)
  {
  }

  /** Under a parsed limit, a request is refused with 429 exactly when its
      counter has reached the limit; a refusal leaves the store as it was,
      an acceptance raises that one counter by one and changes nothing else. */
  lemma LimitDecision(store: map<string, int>, apiKeys: map<string, string>, globalRate: string,
                      path: string, headers: map<string, string>, limit: int, seconds: nat)
    requires StartsWith(path, ApiPrefix)
    requires GetRateLimit(apiKeys, globalRate, ApiKeyOf(headers)) != ""
    requires ParseRate(GetRateLimit(apiKeys, globalRate, ApiKeyOf(headers))) == Some((limit, seconds))
    ensures var key := CounterKey(ApiKeyOf(headers), path);
      var (outcome, store') := Step(store, apiKeys, globalRate, path, headers);
      && (outcome.Rejected? <==> Count(store, key) >= limit)
      && (outcome.Rejected? ==> outcome.status == 429 && store' == store)
      && (!outcome.Rejected? ==> outcome == Forwarded && store' == store[key := Count(store, key) + 1])
  {
    var key := CounterKey(ApiKeyOf(headers), path);
    assert Step(store, apiKeys, globalRate, path, headers) == Decision(store, key, limit);
  }

  /** No counter ever goes down, and only the request's own counter can change. */
  lemma StepOnlyCounts(store: map<string, int>, apiKeys: map<string, string>, globalRate: string,
                       path: string, headers: map<string, string>)
    ensures var store' := Step(store, apiKeys, globalRate, path, headers).1;
      && (forall k :: k in store ==> k in store' && store[k] <= store'[k])
      && (forall k :: k in store' && k != CounterKey(ApiKeyOf(headers), path) ==> k in store && store'[k] == store[k])
  {
  }

  /** A counter that is within the limit stays within it: the limit caps
      how many requests one key gets through for one path. */
  lemma CounterBounded(store: map<string, int>, apiKeys: map<string, string>, globalRate: string,
                       path: string, headers: map<string, string>, limit: int, seconds: nat)
    requires StartsWith(path, ApiPrefix)
    requires GetRateLimit(apiKeys, globalRate, ApiKeyOf(headers)) != ""
    requires ParseRate(GetRateLimit(apiKeys, globalRate, ApiKeyOf(headers))) == Some((limit, seconds))
    requires 0 <= limit
    requires Count(store, CounterKey(ApiKeyOf(headers), path)) <= limit
    ensures Count(Step(store, apiKeys, globalRate, path, headers).1, CounterKey(ApiKeyOf(headers), path)) <= limit
  {
  }

  // ---------------------------------------------------------------------
  // The middleware object
  // ---------------------------------------------------------------------

  /** The middleware with its counter store; the key table and the global
      rate are the service settings. */
  class RateLimitMiddleware {
    var store: map<string, int>
    const apiKeys: map<string, string>
    const globalRate: string

    constructor(apiKeys: map<string, string>, globalRate: string)
      ensures this.apiKeys == apiKeys && this.globalRate == globalRate
      ensures store == map[]
    {
      this.apiKeys := apiKeys;
      this.globalRate := globalRate;
      store := map[];
    }

    /** `__call__`. */
    method Call(path: string, headers: map<string, string>) returns (outcome: Outcome)
      modifies this
      ensures (outcome, store) == Step(old(store), apiKeys, globalRate, path, headers)
    {
      if !StartsWith(path, ApiPrefix) {
        return Forwarded;
      }
      var apiKey := if ApiKeyHeader in headers then headers[ApiKeyHeader] else Anonymous;
      var rateLimit := GetRateLimit(apiKeys, globalRate, apiKey);
      if rateLimit == "" {
        return Forwarded;
      }
      var parsed := ParseRate(rateLimit);
      if parsed.None? {
        return Raised;
      }
      var key := "ratelimit:" + apiKey + ":" + path;
      assert key == CounterKey(ApiKeyOf(headers), path);
      outcome := Decide(key, parsed.value.0);
    }

    /** The counter update of `__call__` for one key and limit. */
    method Decide(key: string, limit: int) returns (outcome: Outcome)
      modifies this
      ensures (outcome, store) == Decision(old(store), key, limit)
    {
      var current := if key in store then store[key] else 0;
      if current >= limit {
        return Rejected(429, TooManyRequestsDetail);
      }
      store := store[key := current + 1];
      return Forwarded;
    }
  }
}
