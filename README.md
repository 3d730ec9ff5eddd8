# Financial price monitor: data-acquisition core

This project models the data layer of a browser price monitor for gold and
three currencies (USD, CHF, JPY), all priced in CNY. The layer has five parts:

- **Source resolver** (`resolver.dfy`, module `SourceResolver`). Each data
  category (exchange rates, gold spot) has a 60-second cache. Behind it sits a
  fixed-order chain of three providers. The first provider that answers wins.
  Its name goes into `dataSources`, and its payload and the entry time go into
  `cachedData` and `lastFetchTime`. When every provider fails, the category is
  marked `获取失败`, the error goes into `apiErrors`, the cache is left alone,
  and the error is thrown.
- **Conversion engine** (`conversion.dfy`, module `Conversion`). It normalises
  the payload (`rates || payload`) and reads rates with JavaScript `||`, so a
  missing or zero rate falls back to 7.25, 0.88 or 155. It computes the cross
  rates and the gold price per gram (31.1035 g per troy ounce). It then builds
  open/high/low around the price from one random draw.
- **Degradation policy** (`degradation.dfy`, module `Degradation`). Each
  instrument gets live data. Any error gives that instrument its synthetic
  record instead. A refresh cycle visits XAU, USD, CHF and JPY in order and
  gives every one of them a record.
- **Synthetic data** (`mock.dfy`, module `MockData`; `history.dfy`, module
  `History`). The synthetic record is a move of at most ±0.5 % from a fixed
  baseline. The chart's history series has `days + 1` points on consecutive
  days.
- **The monitor object** (`monitor.dfy`, module `Monitor`). A class holds the
  fields the source updates in place: the cache and status maps, `useRealData`,
  `isOnline` and the periodic timer. Its methods mirror the source's methods.
  Each one is proved against the pure specification functions above. A class
  invariant says that at most one periodic timer runs, that it is the one
  `updateInterval` holds, and that live data stays enabled.

Modelling choices:

- Payloads are maps from field names to numbers or to objects of numbers.
- A provider's answer is `NotOk`, `Threw(message)` or `Answered(payload)`, one
  answer per configured provider.
- Times are integer milliseconds, passed in as parameters.
- `Math.random()` is a parameter `u` of type `Draw`, the reals in [0, 1).
- Prices are exact reals, not floating-point numbers.

Facts about the code that shape the model:

- **The start-up probe never fails.** `testApiConnections` awaits
  `Promise.allSettled` (script.js:154), and that promise never rejects. So the
  start-up `catch` that sets `useRealData = false` (script.js:134-142) cannot
  run, and live data is never switched off globally. Degradation happens only
  per instrument. `Monitor.FinancialPriceMonitor.Valid` keeps `useRealData`
  true.
- **A stale cache entry is never reused.** When every provider fails, the fetch
  records the error, sets the failed sentinel and rethrows (script.js:226-231
  and 304-309). The old cached payload is not returned.
- **The forex change is at most 0.1 % of the price.** The comment at
  script.js:411 calls the volatility 0.2 %. The change
  `(u − 0.5) · 0.002 · price` at script.js:412 moves the price by at most half
  of that. `Conversion.ForexChange` proves the bound.
- **`low ≤ price ≤ high` always holds.** The live records (script.js:418-420
  and 457-459) and the synthetic ones (script.js:1044-1046) are all
  OHLC-ordered, and the model proves it for each kind.

## Model

| member | source | states |
|---|---|---|
| `SourceResolver.Resolve` | script.js:162-311 | for either category (`fetchExchangeRates` and `fetchGoldPrice`), no provider is contacted exactly when the cache entry is fresh. The result is a payload exactly when the entry is fresh or some provider answers. A returned payload is the one cached for the category. At most the configured providers are contacted |
| `SourceResolver.FirstOk` | script.js:176-208 | the index returned is the first provider that answered; every earlier one failed; None exactly when all failed |
| `SourceResolver.CacheHit` | script.js:166-171 | a fresh entry (payload present, truthy fetch time, less than 60000 ms old) is returned with no provider contacted and no field changed |
| `SourceResolver.FirstSuccessWins` | script.js:176-225 | without a fresh entry, the first answering provider's payload is returned. It is cached with the entry-time `now`, its name becomes the category's source, and `apiErrors` is unchanged |
| `SourceResolver.AllProvidersFail` | script.js:226-231 | when all providers fail, the resolution throws after contacting all three. The category's source becomes the failed sentinel and its error is recorded. `cachedData` and `lastFetchTime` are unchanged |
| `SourceResolver.OtherCategoryUntouched` | script.js:218-231 | resolving one category leaves the other category's cache entry, fetch time and source as they were |
| `SourceResolver.SecondFetchWithinTimeoutIsCached` | script.js:166-171 | after a successful fetch at a non-zero time, a second resolution within 60000 ms contacts no provider, returns the same payload and changes nothing |
| `SourceResolver.ClearedCacheRefetches` | script.js:962-963 | once both cache maps are emptied, the next resolution of either category contacts at least one provider |
| `Conversion.NumOr` | script.js:387 | JavaScript `x or d` on a rate: the rate when present and non-zero, the default when missing or zero |
| `Conversion.CnyPerUsd` | script.js:387 | `CNY or RMB or 7.25` with JavaScript truthiness: CNY when truthy, else RMB when truthy, else 7.25; never zero |
| `Conversion.RatesOf` | script.js:381-428 | `rates or payload`, as both `fetchForexData` (line 381) and `fetchGoldData` (line 428) write it: a nested `rates` object is the rate table as it is. A non-zero number under `rates` gives an empty table. Without `rates`, or with a zero there, the table holds exactly the payload's numeric fields with their values |
| `Conversion.ForexRate` | script.js:384-403 | defined exactly for USD, CHF and JPY, never zero. USD costs the CNY rate. One CHF times the CHF-per-USD rate, and 100 JPY times the JPY-per-USD rate, equal the CNY-per-USD rate (×100 for JPY) |
| `Conversion.DefaultsWhenRatesMissing` | script.js:387-399 | with CNY, RMB, CHF and JPY missing or zero, the prices are 7.25, 7.25/0.88 and 7.25/155·100 |
| `Conversion.WorkedExample` | script.js:384-399 | rates CNY 7.20, CHF 0.90, JPY 150 and gold 2000 give 7.20, 8.00, 4.80 and 2000·7.20/31.1035 |
| `Conversion.GoldUsdPerOunce` | script.js:435-443 | gold USD/oz is `price` if truthy, else `1/rates.XAU` if truthy, else `gold` if truthy, else the parse error; never zero |
| `Conversion.GoldCnyPerGram` | script.js:445-449 | price per gram × 31.1035 equals USD/oz × CNY/USD; never zero |
| `Conversion.LiveRecord` | script.js:410-421 | low ≤ open ≤ high and low ≤ price ≤ high. changePercent · price = change · 100. Open is half a change below the price. High and low sit 1.2·abs(change) either side |
| `Conversion.ForexChange` | script.js:411-412 | the synthesised forex change satisfies abs(change) ≤ 0.001·abs(price) |
| `Conversion.GoldChange` | script.js:451 | the synthesised gold change lies in [-2.5, 2.5) |
| `Conversion.ForexRecord` | script.js:405-421 | a record exists exactly for supported currencies. Its price is the currency's rate. It is OHLC-ordered within the forex change bound |
| `Conversion.GoldRecord` | script.js:444-460 | a record exists exactly when the gold payload parses. Its price per gram × 31.1035 equals USD/oz × CNY/USD. It is OHLC-ordered with change in [-2.5, 2.5) |
| `MockData.SimulatePriceChange` | script.js:987-996 | changePercent lies in [-0.5, 0.5), newPrice = base + change, change·100 = base·changePercent, abs(newPrice − base) ≤ 0.005·abs(base) |
| `MockData.GenerateMockData` | script.js:1033-1048 | None exactly for an unknown symbol; otherwise within 0.5 % of the baseline price, open equals the baseline open, high ≥ price and the baseline high, low ≤ price and the baseline low |
| `MockData.BaselinesConsistent` | script.js:56-89 | every baseline is OHLC-ordered with a positive price |
| `MockData.MockConsistent` | script.js:1040-1047 | every synthetic record is OHLC-ordered |
| `Degradation.ForexData` | script.js:379-422 | forex data succeeds exactly when the rates resolve and the currency is supported. A success is the converted record of the resolved rates. A resolution failure rethrows the resolver's error. The cache state is the resolution's |
| `Degradation.GoldData` | script.js:424-464 | a gold resolution error gives the synthetic record and fetches no exchange rates. Otherwise the state is that of resolving gold, then forex. The record is synthetic on a forex error or an unparseable gold payload, and otherwise the converted gold record |
| `Degradation.RealData` | script.js:355-377 | with live data off, the synthetic record and an unchanged cache. An unknown instrument gets no record and no fetch. A tracked instrument with live data on always gets a record |
| `Degradation.Cycle` | script.js:1001-1010 | a cycle yields one record per instrument visited |
| `Degradation.RealDataNeverFails` | script.js:355-377 | every tracked instrument gets a record, never an error. The record is OHLC-ordered. It is either live within its change bound or the instrument's synthetic record, and synthetic whenever live data is off |
| `Degradation.LiveOrSynthetic` | script.js:355-464 | with live data on, a currency gets the converted record of the resolved rates, or its synthetic record when they fail. Gold gets the converted record when gold resolves, then the rates resolve, then the payload parses, and its synthetic record otherwise, as `fetchRealData` dispatches and `fetchGoldData` catches |
| `Degradation.MockWhenLiveDataOff` | script.js:356-358 | with live data off, the record is the synthetic one and nothing is fetched |
| `Degradation.ForexFailureIsSynthetic` | script.js:367-376 | when the exchange rates cannot be resolved, each currency gets its synthetic record |
| `Degradation.AssetOrderTracked` | script.js:43-48 | every instrument a cycle visits is a configured asset |
| `Degradation.CycleServesEveryAsset` | script.js:998-1011 | a failure on one instrument never aborts the cycle; every visited instrument gets a present, OHLC-ordered record, live or synthetic |
| `Degradation.FullCycleRecordsPresent` | script.js:1001-1010 | all four records of a full cycle are present and OHLC-ordered |
| `History.PresetDays` | script.js:597-603 | 1M = 30, 6M = 180, 1Y = 365, 3Y = 1095, anything else 180 |
| `History.CeilDays` | script.js:595 | `Math.ceil(ms / 86400000)` on whole milliseconds, characterised by (d−1)·day < ms ≤ d·day |
| `History.GenerateHistoricalData` | script.js:585-631 | empty for an unknown symbol. Otherwise `days + 1` points (none when days < 0), point i on the first day + i, priced at the baseline × the i-th multiplier |
| `History.DaysRiseByOne` | script.js:611-613 | consecutive points are one day apart, so days rise strictly |
| `History.PresetSeriesEndsToday` | script.js:604-605 | a preset series has a non-negative length and its last point is today |
| `History.OneMonthHas31Points` | script.js:598 | a one-month series has 31 points starting 30 days before today |
| `History.CustomSeriesCoversRange` | script.js:593-595 | a custom range of non-negative span covers that span, with less than one extra day |
| `Monitor.FinancialPriceMonitor.constructor` | script.js:51-118 | empty caches and errors, both sources unknown, offline, live data on, and the periodic timer started by `init` |
| `Monitor.FinancialPriceMonitor.FetchExchangeRates` | script.js:161-233 | the new maps, the payload or thrown error, and the number of providers contacted are those `Resolve` gives for the forex category |
| `Monitor.FinancialPriceMonitor.FetchGoldPrice` | script.js:235-311 | the same for the gold category, with the loop over the three gold providers |
| `Monitor.FinancialPriceMonitor.RecordFailure` | script.js:226-231 | the failure path records the error, sets the failed sentinel and throws the error |
| `Monitor.FinancialPriceMonitor.TestApiConnections` | script.js:147-158 | the probe resolves both categories and never fails |
| `Monitor.FinancialPriceMonitor.FetchForexData` | script.js:379-422 | the new state and record or error are those of `ForexData` |
| `Monitor.FinancialPriceMonitor.FetchGoldData` | script.js:424-464 | the new state and record are those of `GoldData`: the converted gold record when gold, then the rates, resolve and the payload parses; the synthetic gold record otherwise; no rate fetch after a gold failure |
| `Monitor.FinancialPriceMonitor.FetchRealData` | script.js:355-377 | the new state and record are those of `RealData` |
| `Monitor.FinancialPriceMonitor.UpdateAllPrices` | script.js:998-1031 | the new state and records are those of `Cycle` over XAU, USD, CHF, JPY; every record is present and OHLC-ordered |
| `Monitor.FinancialPriceMonitor.ConnectAfterStartup` | script.js:126-133 | after the probe the monitor is online, live data stays on, and the first cycle runs on the probed cache |
| `Monitor.FinancialPriceMonitor.StartDataFetching` | script.js:936-943 | a new timer is registered and becomes `updateInterval` |
| `Monitor.FinancialPriceMonitor.Tick` | script.js:938-942 | a timer firing starts a cycle exactly when online |
| `Monitor.FinancialPriceMonitor.PauseUpdates` | script.js:945-950 | afterwards no timer is held or runs. With none held before, nothing changes, so pausing is idempotent |
| `Monitor.FinancialPriceMonitor.ResumeUpdates` | script.js:952-957 | a timer and a cycle start exactly when none was held and the browser is online; otherwise nothing changes; at most one timer runs |
| `Monitor.FinancialPriceMonitor.ManualRefresh` | script.js:959-969 | both cache maps become empty and a cycle starts, online or not |
| `Monitor.FinancialPriceMonitor.OnOnline` | script.js:483-487 | online after it; a cycle starts exactly when no timer was held; a timer then runs |
| `Monitor.FinancialPriceMonitor.OnOffline` | script.js:489-493 | offline after it, with no timer held or running |

## Left out

- HTTP `fetch` and JSON decoding are not modelled. They are foreign I/O. A provider's answer is given as `NotOk`, `Threw(message)` or `Answered(payload)`.
- JSON bodies that are not objects are left out: `null`, `0`, `false` or a string.
- String-valued numeric fields are not modelled. A payload such as `"price": "2350.1"` or a rate given as a string is one JavaScript turns into a number through `parseFloat` or arithmetic (script.js:410, 446). The payload model holds only numbers and objects of numbers.
- A field holding an object where a number is read (`price`, `gold`, a rate) is read as absent. JavaScript would compute `NaN` there. NaN, infinities and floating-point rounding are not modelled: prices are exact reals.
- The gold fetch finds its provider names from the URL by substring tests (script.js:267-277). The model records the three names those tests give. The `Gold API` and `未知源` branches cannot be reached.
- `Monitor.FinancialPriceMonitor.FetchGoldPrice`: the source's `for…of` loop breaks after the first answer. The model's loop tests "no payload yet" in its guard instead, which tries the same providers.
- `testApiConnections` starts its two fetches at once, and they interleave at their awaits. The model runs them one after the other. They touch different keys, so the final maps are the same.
- The `!rate` check in `fetchForexData` (script.js:405-407) cannot fire. `Conversion.ForexRate` proves the rate is never zero, so that branch is not modelled.
- `Math.random()` is a parameter.
- `Date.now()` is a parameter: one reading per category fetch.
- `calculateDollarIndex` (script.js:314-352) is not modelled. It uses fractional `Math.pow`, and nothing calls it.
- `History.GenerateHistoricalData` returns only the shape of the series. The price values are left out: a sine trend, jitter, a drift and `toFixed` rounding (script.js:615-626). They are replaced by a multiplier supplied by the caller.
- Calendar handling is approximated: `setDate` is read as whole UTC days, so local time and daylight saving are left out. A preset period combined with an explicit end date is left out too; no caller passes one. The model counts back from today.
- DOM and chart code are not modelled. This covers card lookup (`updatePrice` skips a missing card), display, status texts, the last-update clock, chart creation and chart updates, and the period and custom-date handlers.
- The 300 ms stagger, the 1000 ms start-up delay and the wiring of the visibility events are timing and event plumbing. The visibility events themselves are left out; the pause and resume they call are modelled.
- `Monitor.FinancialPriceMonitor.ResumeUpdates`, `ManualRefresh` and `Tick` start an `updateAllPrices` cycle without awaiting it. The model reports the started cycle as `cycleStarted`; the cycle itself is `UpdateAllPrices`, run separately. Overlapping cycles are not modelled.
- The `catch` branches of start-up (script.js:134-142) and of `updateAllPrices` (script.js:1006-1009) cannot be reached: nothing inside them throws. They are not modelled.
