/** The monitor object: the cache and status maps the fetches update in
    place, the live-data flag, the online flag and the periodic update timer. */
module Monitor {
  import opened Wrappers
  import opened Conversion
  import opened MockData
  import opened SourceResolver
  import opened Degradation

  /** The state after the start-up probe: forex first, then gold. */
  ghost function Probed(s: CacheState, probe: SymbolInputs): CacheState
    requires WellFormed(probe)
  {
    Resolve(Resolve(s, Forex, probe.forexNow, probe.forexResponses).state,
            Gold, probe.goldNow, probe.goldResponses).state
  }

  class FinancialPriceMonitor {
    var cachedData: map<string, RawQuote>
    var lastFetchTime: map<string, int>
    var dataSources: map<string, string>
    var apiErrors: map<string, string>
    var useRealData: bool
    var isOnline: bool
    /** The handle of the periodic update timer, null when none is held. */
    var updateInterval: Option<nat>
    /** The interval timers registered with the browser, by handle. */
    var timers: set<nat>
    /** The handle the browser gives the next timer. */
    var nextTimerId: nat

    /** The resolver's view of the object. */
    function State(): CacheState
      reads this
    {
      CacheState(cachedData, lastFetchTime, dataSources, apiErrors)
    }

    /** At most one periodic timer runs, and it is the one `updateInterval`
        holds; live data stays enabled. */
    ghost predicate Valid()
      reads this
    {
      && (updateInterval.None? ==> timers == {})
      && (updateInterval.Some? ==> timers == {updateInterval.value})
      && (forall t :: t in timers ==> t < nextTimerId)
      && useRealData
    }

    /** The constructor and the synchronous part of start-up: empty caches,
        unknown sources, offline, and the periodic timer started. */
    constructor ()
      ensures Valid()
      ensures cachedData == map[] && lastFetchTime == map[] && apiErrors == map[]
      ensures dataSources == map["forex" := UnknownSentinel, "gold" := UnknownSentinel]
      ensures !isOnline && updateInterval.Some?
    {
      cachedData := map[];
      lastFetchTime := map[];
      apiErrors := map[];
      dataSources := map["forex" := UnknownSentinel, "gold" := UnknownSentinel];
      useRealData := true;
      isOnline := false;
      updateInterval := None;
      timers := {};
      nextTimerId := 1;
      new;
      StartDataFetching();
    }

    /** The exchange rates: the cached payload while fresh, otherwise the
        first of three providers that answers, with the third provider's own
        error propagating when it throws. */
    method FetchExchangeRates(now: int, responses: seq<Response>) returns (result: Result<RawQuote>, contacted: nat)
      requires |responses| == |Providers(Forex)|
      modifies this`cachedData, this`lastFetchTime, this`dataSources, this`apiErrors
      ensures var out := Resolve(old(State()), Forex, now, responses);
        State() == out.state && result == out.result && contacted == out.contacted
    {
      var key := CacheKey(Forex);
      if IsFresh(State(), key, now) {
        return Ok(cachedData[key]), 0;
      }
      var data: Option<RawQuote> := None;
      var sourceUsed := "";
      contacted := 1;
      if responses[0].Answered? {
        data := Some(responses[0].body);
        sourceUsed := "ExchangeRate-API";
      }
      if data.None? {
        contacted := 2;
        if responses[1].Answered? {
          data := Some(responses[1].body);
          sourceUsed := "Open ExchangeRate";
        }
      }
      if data.None? {
        contacted := 3;
        if responses[2].Threw? {
          result := RecordFailure(Forex, responses[2].message);
          return;
        }
        if responses[2].Answered? {
          data := Some(responses[2].body);
          sourceUsed := "FX Rates API";
        }
      }
      if data.None? {
        result := RecordFailure(Forex, AllFailedMessage(Forex));
        return;
      }
      dataSources := dataSources["forex" := sourceUsed];
      cachedData := cachedData[key := data.value];
      lastFetchTime := lastFetchTime[key := now];
      result := Ok(data.value);
    }

    /** The gold spot payload: the cached payload while fresh, otherwise the
        first of three providers that answers. */
    method FetchGoldPrice(now: int, responses: seq<Response>) returns (result: Result<RawQuote>, contacted: nat)
      requires |responses| == |Providers(Gold)|
      modifies this`cachedData, this`lastFetchTime, this`dataSources, this`apiErrors
      ensures var out := Resolve(old(State()), Gold, now, responses);
        State() == out.state && result == out.result && contacted == out.contacted
    {
      var key := CacheKey(Gold);
      if IsFresh(State(), key, now) {
        return Ok(cachedData[key]), 0;
      }
      var apis := Providers(Gold);
      var data: Option<RawQuote> := None;
      var apiUsed := "";
      var i := 0;
      while i < |apis| && data.None?
        invariant 0 <= i <= |apis|
        invariant data.None? ==> forall j :: 0 <= j < i ==> !responses[j].Answered?
        invariant data.Some? ==> 0 < i && FirstOk(responses) == Some(i - 1)
        invariant data.Some? ==> data.value == responses[i - 1].body && apiUsed == apis[i - 1]
        invariant unchanged(this)
      {
        if responses[i].Answered? {
          data := Some(responses[i].body);
          apiUsed := apis[i];
        }
        i := i + 1;
      }
      contacted := i;
      if data.None? {
        result := RecordFailure(Gold, AllFailedMessage(Gold));
        return;
      }
      dataSources := dataSources["gold" := apiUsed];
      cachedData := cachedData[key := data.value];
      lastFetchTime := lastFetchTime[key := now];
      result := Ok(data.value);
    }

    /** The shared failure path of both fetches: record the error, mark the
        category as failed, and throw. */
    method RecordFailure(c: Category, message: string) returns (result: Result<RawQuote>)
      modifies this`dataSources, this`apiErrors
      ensures apiErrors == old(apiErrors)[StatusKey(c) := message]
      ensures dataSources == old(dataSources)[StatusKey(c) := FailedSentinel]
      ensures result == Err(message)
    {
      apiErrors := apiErrors[StatusKey(c) := message];
      dataSources := dataSources[StatusKey(c) := FailedSentinel];
      result := Err(message);
    }

    /** The start-up connectivity probe: both categories are fetched and the
        outcome of each is ignored, so the probe itself never fails. */
    method TestApiConnections(probe: SymbolInputs)
      requires WellFormed(probe)
      modifies this`cachedData, this`lastFetchTime, this`dataSources, this`apiErrors
      ensures State() == Probed(old(State()), probe)
    {
      var _, _ := FetchExchangeRates(probe.forexNow, probe.forexResponses);
      var _, _ := FetchGoldPrice(probe.goldNow, probe.goldResponses);
    }

    /** Live forex data for one currency. */
    method FetchForexData(symbol: string, ins: SymbolInputs) returns (result: Result<PriceRecord>)
      requires WellFormed(ins)
      modifies this`cachedData, this`lastFetchTime, this`dataSources, this`apiErrors
      ensures var out := ForexData(old(State()), symbol, ins);
        State() == out.state && result == out.record
    {
      var exchangeData, _ := FetchExchangeRates(ins.forexNow, ins.forexResponses);
      if exchangeData.Err? {
        return Err(exchangeData.message);
      }
      var rates := RatesOf(exchangeData.value);
      var rate := ForexRate(symbol, rates);
      if rate.None? {
        return Err(UnsupportedCurrency(symbol));
      }
      var change := ForexChange(rate.value, ins.draw);
      result := Ok(LiveRecord(rate.value, change));
    }

    /** Live gold data, or the synthetic gold record on any failure. */
    method FetchGoldData(symbol: string, ins: SymbolInputs) returns (record: Option<PriceRecord>)
      requires WellFormed(ins)
      modifies this`cachedData, this`lastFetchTime, this`dataSources, this`apiErrors
      ensures var out := GoldData(old(State()), symbol, ins);
        State() == out.state && record == out.record
    {
      var goldData, _ := FetchGoldPrice(ins.goldNow, ins.goldResponses);
      if goldData.Err? {
        return GenerateMockData(symbol, ins.draw);
      }
      var exchangeData, _ := FetchExchangeRates(ins.forexNow, ins.forexResponses);
      if exchangeData.Err? {
        return GenerateMockData(symbol, ins.draw);
      }
      var usdToCny := CnyPerUsd(RatesOf(exchangeData.value));
      var priceInUsd := GoldUsdPerOunce(goldData.value);
      if priceInUsd.Err? {
        return GenerateMockData(symbol, ins.draw);
      }
      var pricePerGram := GoldCnyPerGram(priceInUsd.value, usdToCny);
      record := Some(LiveRecord(pricePerGram, GoldChange(ins.draw)));
    }

    /** The record of one instrument, never an error. */
    method FetchRealData(symbol: string, ins: SymbolInputs) returns (record: Option<PriceRecord>)
      requires WellFormed(ins)
      modifies this`cachedData, this`lastFetchTime, this`dataSources, this`apiErrors
      ensures var out := RealData(old(State()), useRealData, symbol, ins);
        State() == out.state && record == out.record
    {
      if !useRealData {
        return GenerateMockData(symbol, ins.draw);
      }
      if symbol !in Assets {
        return None;
      }
      var apiKey := Assets[symbol].apiKey;
      if apiKey == "forex" {
        var r := FetchForexData(symbol, ins);
        record := if r.Ok? then Some(r.value) else GenerateMockData(symbol, ins.draw);
      } else if apiKey == "gold" {
        record := FetchGoldData(symbol, ins);
      } else {
        record := GenerateMockData(symbol, ins.draw);
      }
    }

    /** One refresh cycle: every instrument in order, each with its own inputs;
        every instrument gets its record. */
    method UpdateAllPrices(inputs: seq<SymbolInputs>) returns (records: seq<Option<PriceRecord>>)
      requires |inputs| == |AssetOrder|
      requires forall k :: 0 <= k < |inputs| ==> WellFormed(inputs[k])
      modifies this`cachedData, this`lastFetchTime, this`dataSources, this`apiErrors
      ensures var out := Cycle(old(State()), useRealData, AssetOrder, inputs);
        State() == out.state && records == out.record
      ensures forall k :: 0 <= k < |records| ==> records[k].Some? && OhlcConsistent(records[k].value)
    {
      ghost var s0 := State();
      records := [];
      var i := 0;
      while i < |AssetOrder|
        invariant 0 <= i <= |AssetOrder|
        invariant var out := Cycle(s0, useRealData, AssetOrder[..i], inputs[..i]);
          State() == out.state && records == out.record
      {
        var r := FetchRealData(AssetOrder[i], inputs[i]);
        CycleStep(s0, useRealData, AssetOrder, inputs, i);
        records := records + [r];
        i := i + 1;
      }
      assert AssetOrder[..i] == AssetOrder;
      assert inputs[..i] == inputs;
      FullCycleRecordsPresent(s0, useRealData, inputs, records);
    }

    /** The body that runs a second after start-up: probe both categories,
        go online and run a first refresh cycle. The probe cannot fail, so
        live data stays enabled. */
    method ConnectAfterStartup(probe: SymbolInputs, inputs: seq<SymbolInputs>) returns (records: seq<Option<PriceRecord>>)
      requires Valid()
      requires WellFormed(probe)
      requires |inputs| == |AssetOrder|
      requires forall k :: 0 <= k < |inputs| ==> WellFormed(inputs[k])
      modifies this`cachedData, this`lastFetchTime, this`dataSources, this`apiErrors, this`isOnline
      ensures Valid() && isOnline && useRealData
      ensures var out := Cycle(Probed(old(State()), probe), true, AssetOrder, inputs);
        State() == out.state && records == out.record
    {
      TestApiConnections(probe);
      isOnline := true;
      records := UpdateAllPrices(inputs);
    }

    /** Register the periodic update timer. */
    method StartDataFetching()
      modifies this`updateInterval, this`timers, this`nextTimerId
      ensures updateInterval == Some(old(nextTimerId))
      ensures timers == old(timers) + {old(nextTimerId)}
      ensures nextTimerId == old(nextTimerId) + 1
    {
      timers := timers + {nextTimerId};
      updateInterval := Some(nextTimerId);
      nextTimerId := nextTimerId + 1;
    }

    /** One firing of the periodic timer: a cycle starts only while online. */
    method Tick() returns (cycleStarted: bool)
      ensures cycleStarted <==> isOnline
    {
      cycleStarted := isOnline;
    }

    /** Stop the periodic timer if one is held; afterwards none runs. */
    method PauseUpdates()
      requires Valid()
      modifies this`updateInterval, this`timers
      ensures Valid()
      ensures updateInterval.None? && timers == {}
      ensures old(updateInterval).None? ==> timers == old(timers)
    {
      if updateInterval.Some? {
        timers := timers - {updateInterval.value};
        updateInterval := None;
      }
    }

    /** Restart the periodic timer and a refresh cycle, but only when no timer
        is held and the browser is online; otherwise nothing changes. */
    method ResumeUpdates() returns (cycleStarted: bool)
      requires Valid()
      modifies this`updateInterval, this`timers, this`nextTimerId
      ensures Valid()
      ensures cycleStarted <==> old(updateInterval).None? && isOnline
      ensures cycleStarted ==> updateInterval.Some? && timers == {updateInterval.value}
      ensures !cycleStarted ==>
        updateInterval == old(updateInterval) && timers == old(timers) && nextTimerId == old(nextTimerId)
    {
      cycleStarted := false;
      if updateInterval.None? && isOnline {
        StartDataFetching();
        cycleStarted := true;
      }
    }

    /** Empty both cache maps wholesale and start a refresh cycle, online or not. */
    method ManualRefresh() returns (cycleStarted: bool)
      modifies this`cachedData, this`lastFetchTime
      ensures cachedData == map[] && lastFetchTime == map[]
      ensures cycleStarted
    {
      cachedData := map[];
      lastFetchTime := map[];
      cycleStarted := true;
    }

    /** The browser comes online: mark it and resume updates. */
    method OnOnline() returns (cycleStarted: bool)
      requires Valid()
      modifies this`isOnline, this`updateInterval, this`timers, this`nextTimerId
      ensures Valid() && isOnline
      ensures cycleStarted <==> old(updateInterval).None?
      ensures updateInterval.Some? && timers == {updateInterval.value}
    {
      isOnline := true;
      cycleStarted := ResumeUpdates();
    }

    /** The browser goes offline: mark it and stop the timer. */
    method OnOffline()
      requires Valid()
      modifies this`isOnline, this`updateInterval, this`timers
      ensures Valid() && !isOnline
      ensures updateInterval.None? && timers == {}
    {
      isOnline := false;
      PauseUpdates();
    }
  }
}
