/** The degradation policy: per instrument, live conversion of the resolved
    category data, and on any failure the synthetic record for that
    instrument alone. A refresh cycle visits every instrument in order. */
module Degradation {
  import opened Wrappers
  import opened Conversion
  import opened MockData
  import opened SourceResolver

  /** Static description of a tracked instrument. */
  datatype Asset = Asset(name: string, symbol: string, kind: string, apiKey: string)

  const Assets: map<string, Asset> := map[
    "XAU" := Asset("黄金", "XAUCNY", "metal", "gold"),
    "USD" := Asset("美元", "USDCNY", "forex", "forex"),
    "CHF" := Asset("瑞士法郎", "CHFCNY", "forex", "forex"),
    "JPY" := Asset("日元", "JPYCNY", "forex", "forex")
  ]

  /** The order in which a refresh cycle visits the instruments. */
  const AssetOrder: seq<string> := ["XAU", "USD", "CHF", "JPY"]

  /** What the outside world supplies while one instrument is updated: the
      clock reading and the providers' answers at each category fetch, and
      the one random draw the update consumes. */
  datatype SymbolInputs = SymbolInputs(
    goldNow: int, goldResponses: seq<Response>,
    forexNow: int, forexResponses: seq<Response>,
    draw: Draw)

  predicate WellFormed(ins: SymbolInputs)
  {
    |ins.goldResponses| == |Providers(Gold)| && |ins.forexResponses| == |Providers(Forex)|
  }

  /** A resolution step together with the record (or error) it produced. */
  datatype Update<T> = Update(state: CacheState, record: T)

  function UnsupportedCurrency(symbol: string): string
  {
    "不支持的货币: " + symbol
  }

  /** Live forex data: resolve the exchange rates, then convert. Throws (Err)
      when the rates cannot be resolved or the currency is unsupported. */
  function ForexData(s: CacheState, symbol: string, ins: SymbolInputs): (out: Update<Result<PriceRecord>>)
    requires WellFormed(ins)
    ensures out.state == Resolve(s, Forex, ins.forexNow, ins.forexResponses).state
    ensures out.record.Ok? <==>
      Resolve(s, Forex, ins.forexNow, ins.forexResponses).result.Ok? && symbol in {"USD", "CHF", "JPY"}
    ensures var f := Resolve(s, Forex, ins.forexNow, ins.forexResponses);
      out.record.Ok? ==> Some(out.record.value) == ForexRecord(symbol, RatesOf(f.result.value), ins.draw)
    ensures var f := Resolve(s, Forex, ins.forexNow, ins.forexResponses);
      f.result.Err? ==> out.record == Err(f.result.message)
  {
    var res := Resolve(s, Forex, ins.forexNow, ins.forexResponses);
    match res.result
    case Err(m) => Update(res.state, Err(m))
    case Ok(q) =>
      match ForexRecord(symbol, RatesOf(q), ins.draw)
      case None => Update(res.state, Err(UnsupportedCurrency(symbol)))
      case Some(r) => Update(res.state, Ok(r))
  }

  /** Live gold data: resolve gold, then the exchange rates, then convert;
      any failure on the way yields the synthetic record. The exchange rates
      are not fetched when gold fails. */
  function GoldData(s: CacheState, symbol: string, ins: SymbolInputs): (out: Update<Option<PriceRecord>>)
    requires WellFormed(ins)
    // a gold resolution error: synthetic record, exchange rates not fetched
    ensures var g := Resolve(s, Gold, ins.goldNow, ins.goldResponses);
      g.result.Err? ==> out == Update(g.state, GenerateMockData(symbol, ins.draw))
    ensures var g := Resolve(s, Gold, ins.goldNow, ins.goldResponses);
      var f := Resolve(g.state, Forex, ins.forexNow, ins.forexResponses);
      g.result.Ok? ==>
        && out.state == f.state
        // a rates resolution error or an unparseable gold payload: synthetic record
        && (f.result.Err? || GoldUsdPerOunce(g.result.value).Err? ==> out.record == GenerateMockData(symbol, ins.draw))
        // otherwise the converted live record
        && (f.result.Ok? && GoldUsdPerOunce(g.result.value).Ok? ==>
              out.record == Some(GoldRecord(g.result.value, RatesOf(f.result.value), ins.draw).value))
  {
    var g := Resolve(s, Gold, ins.goldNow, ins.goldResponses);
    if g.result.Err? then Update(g.state, GenerateMockData(symbol, ins.draw))
    else
      var f := Resolve(g.state, Forex, ins.forexNow, ins.forexResponses);
      if f.result.Err? then Update(f.state, GenerateMockData(symbol, ins.draw))
      else match GoldRecord(g.result.value, RatesOf(f.result.value), ins.draw)
        case Err(_) => Update(f.state, GenerateMockData(symbol, ins.draw))
        case Ok(r) => Update(f.state, Some(r))
  }

  /** The record of one instrument: synthetic when live data is off, None for
      an unknown instrument, otherwise live data with the synthetic record
      substituted for any error. */
  function RealData(s: CacheState, useRealData: bool, symbol: string, ins: SymbolInputs): (out: Update<Option<PriceRecord>>)
    requires WellFormed(ins)
    ensures !useRealData ==> out == Update(s, GenerateMockData(symbol, ins.draw))
    ensures useRealData && symbol !in Assets ==> out == Update(s, None)
    ensures useRealData && symbol in Assets ==> out.record.Some?
  {
    if !useRealData then Update(s, GenerateMockData(symbol, ins.draw))
    else if symbol !in Assets then Update(s, None)
    else match Assets[symbol].apiKey
      case "forex" =>
        var f := ForexData(s, symbol, ins);
        Update(f.state, if f.record.Ok? then Some(f.record.value) else GenerateMockData(symbol, ins.draw))
      case "gold" => GoldData(s, symbol, ins)
      case _ => Update(s, GenerateMockData(symbol, ins.draw))
  }

  /** A refresh cycle over `symbols`, one set of inputs per instrument, the
      cache state threaded from one instrument to the next. */
  function Cycle(s: CacheState, useRealData: bool, symbols: seq<string>, inputs: seq<SymbolInputs>): (out: Update<seq<Option<PriceRecord>>>)
    requires |inputs| == |symbols|
    requires forall k :: 0 <= k < |inputs| ==> WellFormed(inputs[k])
    ensures |out.record| == |symbols|
    decreases |symbols|
  {
    if symbols == [] then Update(s, [])
    else
      var n := |symbols| - 1;
      var before := Cycle(s, useRealData, symbols[..n], inputs[..n]);
      var last := RealData(before.state, useRealData, symbols[n], inputs[n]);
      Update(last.state, before.record + [last.record])
  }

  /** A cycle over a longer prefix is the cycle over the shorter one followed
      by the next instrument. */
  lemma CycleStep(s: CacheState, useRealData: bool, symbols: seq<string>, inputs: seq<SymbolInputs>, i: nat)
    requires |inputs| == |symbols| && i < |symbols|
    requires forall k :: 0 <= k < |inputs| ==> WellFormed(inputs[k])
    ensures var before := Cycle(s, useRealData, symbols[..i], inputs[..i]);
      var last := RealData(before.state, useRealData, symbols[i], inputs[i]);
      Cycle(s, useRealData, symbols[..i + 1], inputs[..i + 1]) == Update(last.state, before.record + [last.record])
  {
    assert symbols[..i + 1][..i] == symbols[..i];
    assert inputs[..i + 1][..i] == inputs[..i];
  }

  /** A live record that came from converted provider data. */
  predicate IsLive(symbol: string, r: PriceRecord)
  {
    OhlcConsistent(r)
    && (symbol == "XAU" ==> -2.5 <= r.change < 2.5)
    && (symbol != "XAU" ==> Abs(r.change) <= 0.001 * Abs(r.price))
  }

  /** Every tracked instrument always gets a record, never an error: an
      ordered one, live within the live change bounds or synthetic, and
      synthetic whenever live data is off. */
  lemma RealDataNeverFails(s: CacheState, useRealData: bool, symbol: string, ins: SymbolInputs)
    requires WellFormed(ins)
    requires symbol in Assets
    ensures var r := RealData(s, useRealData, symbol, ins).record;
      && r.Some?
      && OhlcConsistent(r.value)
      && (r == GenerateMockData(symbol, ins.draw) || IsLive(symbol, r.value))
      && (!useRealData ==> r == GenerateMockData(symbol, ins.draw))
  {
    MockConsistent(symbol, ins.draw);
  }

  /** Which record an instrument gets with live data on. It is the converted
      live record when every step of the live path succeeds: for a currency,
      the exchange rates resolve; for gold, the gold payload resolves, then
      the rates resolve, then the payload parses. Otherwise it is the
      instrument's synthetic record. */
  lemma LiveOrSynthetic(s: CacheState, symbol: string, ins: SymbolInputs)
    requires WellFormed(ins)
    requires symbol in Assets
    ensures var r := RealData(s, true, symbol, ins).record;
      var f := Resolve(s, Forex, ins.forexNow, ins.forexResponses);
      symbol != "XAU" ==>
        r == if f.result.Ok? then ForexRecord(symbol, RatesOf(f.result.value), ins.draw)
             else GenerateMockData(symbol, ins.draw)
    ensures var r := RealData(s, true, symbol, ins).record;
      var g := Resolve(s, Gold, ins.goldNow, ins.goldResponses);
      var f := Resolve(g.state, Forex, ins.forexNow, ins.forexResponses);
      symbol == "XAU" ==>
        r == if g.result.Ok? && f.result.Ok? && GoldUsdPerOunce(g.result.value).Ok?
             then Some(GoldRecord(g.result.value, RatesOf(f.result.value), ins.draw).value)
             else GenerateMockData(symbol, ins.draw)
  {
  }

  /** Live data off means synthetic data, and the cache is not consulted. */
  lemma MockWhenLiveDataOff(s: CacheState, symbol: string, ins: SymbolInputs)
    requires WellFormed(ins)
    ensures RealData(s, false, symbol, ins) == Update(s, GenerateMockData(symbol, ins.draw))
  {
  }

  /** When the exchange rates cannot be resolved, every currency falls back to
      its synthetic record. */
  lemma ForexFailureIsSynthetic(s: CacheState, symbol: string, ins: SymbolInputs)
    requires WellFormed(ins)
    requires symbol in {"USD", "CHF", "JPY"}
    requires Resolve(s, Forex, ins.forexNow, ins.forexResponses).result.Err?
    ensures RealData(s, true, symbol, ins).record == GenerateMockData(symbol, ins.draw)
  {
  }

  /** A record a refresh cycle may hand out for `symbol`: present, ordered,
      and live within the change bounds or the synthetic record. */
  predicate Served(symbol: string, draw: Draw, r: Option<PriceRecord>)
  {
    && r.Some?
    && OhlcConsistent(r.value)
    && (r == GenerateMockData(symbol, draw) || IsLive(symbol, r.value))
  }

  /** Appending a served record to served records of a prefix serves the
      whole sequence. */
  lemma ServedAppend(symbols: seq<string>, inputs: seq<SymbolInputs>,
                     before: seq<Option<PriceRecord>>, last: Option<PriceRecord>)
    requires |symbols| == |inputs| == |before| + 1
    requires var n := |before|;
      forall k :: 0 <= k < n ==> Served(symbols[..n][k], inputs[..n][k].draw, before[k])
    requires Served(symbols[|before|], inputs[|before|].draw, last)
    ensures var out := before + [last];
      forall k :: 0 <= k < |symbols| ==> Served(symbols[k], inputs[k].draw, out[k])
  {
    var n := |before|;
    forall k | 0 <= k < |symbols|
      ensures Served(symbols[k], inputs[k].draw, (before + [last])[k])
    {
      if k < n {
        assert symbols[..n][k] == symbols[k] && inputs[..n][k] == inputs[k];
      }
    }
  }

  /** A refresh cycle over the tracked instruments gives every instrument a
      record; a failure on one never aborts the others. */
  lemma {:induction false} CycleServesEveryAsset(s: CacheState, useRealData: bool, symbols: seq<string>, inputs: seq<SymbolInputs>)
    requires |inputs| == |symbols|
    requires forall k :: 0 <= k < |inputs| ==> WellFormed(inputs[k])
    requires forall k :: 0 <= k < |symbols| ==> symbols[k] in Assets
    ensures var out := Cycle(s, useRealData, symbols, inputs).record;
      forall k :: 0 <= k < |symbols| ==> Served(symbols[k], inputs[k].draw, out[k])
  {
    if symbols != [] {
      var n := |symbols| - 1;
      var before := Cycle(s, useRealData, symbols[..n], inputs[..n]);
      var last := RealData(before.state, useRealData, symbols[n], inputs[n]);
      assert Cycle(s, useRealData, symbols, inputs).record == before.record + [last.record];
      CycleServesEveryAsset(s, useRealData, symbols[..n], inputs[..n]);
      RealDataNeverFails(before.state, useRealData, symbols[n], inputs[n]);
      ServedAppend(symbols, inputs, before.record, last.record);
    }
  }

  /** Every instrument a refresh cycle visits is a tracked one. */
  lemma AssetOrderTracked()
    ensures forall k :: 0 <= k < |AssetOrder| ==> AssetOrder[k] in Assets
  {
  }

  /** The records of a full refresh cycle are all present and ordered. */
  lemma FullCycleRecordsPresent(s: CacheState, useRealData: bool, inputs: seq<SymbolInputs>,
                                 records: seq<Option<PriceRecord>>)
    requires |inputs| == |AssetOrder|
    requires forall k :: 0 <= k < |inputs| ==> WellFormed(inputs[k])
    requires records == Cycle(s, useRealData, AssetOrder, inputs).record
    ensures forall k :: 0 <= k < |records| ==> records[k].Some? && OhlcConsistent(records[k].value)
  {
    AssetOrderTracked();
    CycleServesEveryAsset(s, useRealData, AssetOrder, inputs);
  }
}
