/** The source resolver: per data category, a short-lived cache in front of a
    fixed-order chain of providers. The first provider that answers wins; if
    all fail, the category is marked as failed and the cache is left alone. */
module SourceResolver {
  import opened Wrappers
  import opened Conversion

  /** The two data categories fetched and cached independently. */
  datatype Category = Forex | Gold

  /** What one provider answered: a non-success status, a thrown error (network
      failure or unparseable body), or a decoded payload. */
  datatype Response = NotOk | Threw(message: string) | Answered(body: RawQuote)

  /** Cache lifetime in milliseconds. */
  const CacheTimeout: int := 60000

  const FailedSentinel: string := "获取失败"
  const UnknownSentinel: string := "未知"

  /** The key under which a category's payload and fetch time are cached. */
  function CacheKey(c: Category): string
  {
    match c
    case Forex => "exchangeRates"
    case Gold => "goldPrice"
  }

  /** The key under which a category's provider and error are recorded. */
  function StatusKey(c: Category): string
  {
    match c
    case Forex => "forex"
    case Gold => "gold"
  }

  /** The providers of a category, by the name recorded when each one serves
      the data, in the order they are tried. */
  function Providers(c: Category): (names: seq<string>)
    ensures |names| == 3
  {
    match c
    case Forex => ["ExchangeRate-API", "Open ExchangeRate", "FX Rates API"]
    case Gold => ["Metals.live", "ExchangeRate.host", "FX Rates API"]
  }

  function AllFailedMessage(c: Category): string
  {
    match c
    case Forex => "所有汇率API都失败了"
    case Gold => "所有黄金价格API都失败了"
  }

  /** The error a category's chain throws when no provider answers. The third
      exchange-rate provider is not guarded by its own handler, so its own
      error, when it throws one, is what propagates. */
  function FailureMessage(c: Category, rs: seq<Response>): string
    requires |rs| == 3
  {
    if c == Forex && rs[2].Threw? then rs[2].message else AllFailedMessage(c)
  }

  /** The cache and status maps the resolver reads and writes. */
  datatype CacheState = CacheState(
    cachedData: map<string, RawQuote>,
    lastFetchTime: map<string, int>,
    dataSources: map<string, string>,
    apiErrors: map<string, string>)

  /** A cache entry answers without fetching when both the payload and a
      non-zero (truthy) fetch time exist and less than the timeout has passed. */
  predicate IsFresh(s: CacheState, key: string, now: int)
  {
    key in s.cachedData && key in s.lastFetchTime && s.lastFetchTime[key] != 0
    && now - s.lastFetchTime[key] < CacheTimeout
  }

  /** The index of the first provider that answered with a payload. */
  function FirstOk(rs: seq<Response>): (r: Option<nat>)
    ensures r.Some? ==> r.value < |rs| && rs[r.value].Answered?
    ensures r.Some? ==> forall j :: 0 <= j < r.value ==> !rs[j].Answered?
    ensures r.None? <==> forall j :: 0 <= j < |rs| ==> !rs[j].Answered?
  {
    if rs == [] then None
    else if rs[0].Answered? then Some(0)
    else match FirstOk(rs[1..])
      case None => None
      case Some(k) => Some(k + 1)
  }

  /** What one resolution leaves behind: the new maps, the payload or the
      error thrown, and how many providers were contacted. */
  datatype Resolution = Resolution(state: CacheState, result: Result<RawQuote>, contacted: nat)

  /** One resolution of category `c` at time `now`, given the answer each of
      its providers would give. */
  function Resolve(s: CacheState, c: Category, now: int, rs: seq<Response>): (out: Resolution)
    requires |rs| == |Providers(c)|
    ensures out.contacted <= |rs|
    ensures out.contacted == 0 <==> IsFresh(s, CacheKey(c), now)
    ensures out.result.Ok? <==> IsFresh(s, CacheKey(c), now) || FirstOk(rs).Some?
    ensures out.result.Ok? ==>
      CacheKey(c) in out.state.cachedData && out.state.cachedData[CacheKey(c)] == out.result.value
  {
    var key := CacheKey(c);
    if IsFresh(s, key, now) then Resolution(s, Ok(s.cachedData[key]), 0)
    else match FirstOk(rs)
      case Some(i) =>
        Resolution(s.(cachedData := s.cachedData[key := rs[i].body],
                      lastFetchTime := s.lastFetchTime[key := now],
                      dataSources := s.dataSources[StatusKey(c) := Providers(c)[i]]),
                   Ok(rs[i].body), i + 1)
      case None =>
        var msg := FailureMessage(c, rs);
        Resolution(s.(apiErrors := s.apiErrors[StatusKey(c) := msg],
                      dataSources := s.dataSources[StatusKey(c) := FailedSentinel]),
                   Err(msg), |rs|)
  }

  /** A fresh cache entry is returned as it is: no provider is contacted and
      nothing changes. */
  lemma CacheHit(s: CacheState, c: Category, now: int, rs: seq<Response>)
    requires |rs| == |Providers(c)|
    requires IsFresh(s, CacheKey(c), now)
    ensures Resolve(s, c, now, rs) == Resolution(s, Ok(s.cachedData[CacheKey(c)]), 0)
  {
  }

  /** Without a fresh entry, the providers are tried in order and the first
      one that answers serves the data: its payload is returned and cached
      with the entry time, and its name becomes the category's source. */
  lemma FirstSuccessWins(s: CacheState, c: Category, now: int, rs: seq<Response>, i: nat)
    requires |rs| == |Providers(c)|
    requires !IsFresh(s, CacheKey(c), now)
    requires i < |rs| && rs[i].Answered?
    requires forall j :: 0 <= j < i ==> !rs[j].Answered?
    ensures var out := Resolve(s, c, now, rs);
      && out.result == Ok(rs[i].body)
      && out.contacted == i + 1
      && out.state.cachedData == s.cachedData[CacheKey(c) := rs[i].body]
      && out.state.lastFetchTime == s.lastFetchTime[CacheKey(c) := now]
      && out.state.dataSources == s.dataSources[StatusKey(c) := Providers(c)[i]]
      && out.state.apiErrors == s.apiErrors
  {
  }

  /** When every provider fails the resolution throws, marks the category as
      failed, records the error, and leaves the cache untouched. */
  lemma AllProvidersFail(s: CacheState, c: Category, now: int, rs: seq<Response>)
    requires |rs| == |Providers(c)|
    requires !IsFresh(s, CacheKey(c), now)
    requires forall j :: 0 <= j < |rs| ==> !rs[j].Answered?
    ensures var out := Resolve(s, c, now, rs);
      && out.result.Err?
      && out.contacted == |rs|
      && out.state.dataSources == s.dataSources[StatusKey(c) := FailedSentinel]
      && out.state.apiErrors == s.apiErrors[StatusKey(c) := out.result.message]
      && out.state.cachedData == s.cachedData
      && out.state.lastFetchTime == s.lastFetchTime
  {
  }

  /** A category's resolution never touches the other category's cache entry
      or status. */
  lemma OtherCategoryUntouched(s: CacheState, c: Category, d: Category, now: int, rs: seq<Response>)
    requires |rs| == |Providers(c)|
    requires c != d
    ensures var out := Resolve(s, c, now, rs);
      && (CacheKey(d) in out.state.cachedData <==> CacheKey(d) in s.cachedData)
      && (CacheKey(d) in s.cachedData ==> out.state.cachedData[CacheKey(d)] == s.cachedData[CacheKey(d)])
      && (CacheKey(d) in out.state.lastFetchTime <==> CacheKey(d) in s.lastFetchTime)
      && (CacheKey(d) in s.lastFetchTime ==> out.state.lastFetchTime[CacheKey(d)] == s.lastFetchTime[CacheKey(d)])
      && (StatusKey(d) in out.state.dataSources <==> StatusKey(d) in s.dataSources)
      && (StatusKey(d) in s.dataSources ==> out.state.dataSources[StatusKey(d)] == s.dataSources[StatusKey(d)])
  {
  }

  /** Two resolutions within the timeout of a successful fetch: the second
      contacts no provider, returns the same payload and changes nothing.
      (A fetch at time 0 is never reused: a zero fetch time is falsy.) */
  lemma SecondFetchWithinTimeoutIsCached(s: CacheState, c: Category, t1: int, rs1: seq<Response>,
                                         t2: int, rs2: seq<Response>)
    requires |rs1| == |Providers(c)| && |rs2| == |Providers(c)|
    requires t1 != 0 && t1 <= t2 < t1 + CacheTimeout
    requires !IsFresh(s, CacheKey(c), t1) && Resolve(s, c, t1, rs1).result.Ok?
    ensures var first := Resolve(s, c, t1, rs1);
      var second := Resolve(first.state, c, t2, rs2);
      && second.contacted == 0
      && second.result == first.result
      && second.state == first.state
  {
    var first := Resolve(s, c, t1, rs1);
    assert first.state.lastFetchTime[CacheKey(c)] == t1;
  }

  /** Emptying both cache maps forces the next resolution of any category to
      contact at least one provider. */
  lemma ClearedCacheRefetches(s: CacheState, c: Category, now: int, rs: seq<Response>)
    requires |rs| == |Providers(c)|
    ensures Resolve(s.(cachedData := map[], lastFetchTime := map[]), c, now, rs).contacted >= 1
  {
  }
}
