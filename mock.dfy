/** Synthetic quotes: a fixed CNY baseline per instrument, perturbed by a
    uniformly drawn change of at most half a percent. */
module MockData {
  import opened Wrappers
  import opened Conversion

  /** The baseline record of every instrument (CNY per gram of gold, CNY per
      USD, CNY per CHF, CNY per 100 JPY). */
  const Baselines: map<string, PriceRecord> := map[
    "XAU" := PriceRecord(614.50, 3.61, 0.59, 610.89, 615.42, 610.25),
    "USD" := PriceRecord(7.2485, 0.0145, 0.20, 7.2340, 7.2520, 7.2315),
    "CHF" := PriceRecord(8.2756, 0.0223, 0.27, 8.2533, 8.2862, 8.2428),
    "JPY" := PriceRecord(4.6825, -0.0185, -0.39, 4.7010, 4.7125, 4.6580)
  ]

  /** A simulated move away from a base price. */
  datatype PriceChange = PriceChange(newPrice: real, change: real, changePercent: real)

  /** A move of `(u - 0.5)` percent, so within [-0.5 %, 0.5 %). */
  function SimulatePriceChange(basePrice: real, u: Draw): (c: PriceChange)
    ensures -0.5 <= c.changePercent < 0.5
    ensures c.newPrice == basePrice + c.change
    ensures c.change * 100.0 == basePrice * c.changePercent
    ensures Abs(c.newPrice - basePrice) <= 0.005 * Abs(basePrice)
  {
    var changePercent := (u - 0.5) * 1.0;
    var change := basePrice * (changePercent / 100.0);
    PriceChange(basePrice + change, change, changePercent)
  }

  function Max(a: real, b: real): real { if a < b then b else a }
  function Min(a: real, b: real): real { if a < b then a else b }

  /** The synthetic record of an instrument, or None for an unknown one. */
  function GenerateMockData(symbol: string, u: Draw): (r: Option<PriceRecord>)
    ensures r.Some? <==> symbol in Baselines
    ensures r.Some? ==>
      var base := Baselines[symbol];
      && -0.5 <= r.value.changePercent < 0.5
      && r.value.price == base.price + r.value.change
      && Abs(r.value.price - base.price) <= 0.005 * base.price
      && r.value.open == base.open
      && r.value.high >= r.value.price && r.value.high >= base.high
      && r.value.low <= r.value.price && r.value.low <= base.low
  {
    if symbol !in Baselines then None
    else
      var base := Baselines[symbol];
      var move := SimulatePriceChange(base.price, u);
      Some(PriceRecord(move.newPrice, move.change, move.changePercent,
                       base.open, Max(base.high, move.newPrice), Min(base.low, move.newPrice)))
  }

  /** Every baseline is itself ordered: low <= open <= high and low <= price <= high. */
  lemma BaselinesConsistent(symbol: string)
    requires symbol in Baselines
    ensures OhlcConsistent(Baselines[symbol]) && Baselines[symbol].price > 0.0
  {
  }

  /** A synthetic record keeps `low <= open <= high` and `low <= price <= high`,
      as the baseline around which it is drawn does. */
  lemma MockConsistent(symbol: string, u: Draw)
    requires symbol in Baselines
    ensures GenerateMockData(symbol, u).Some? && OhlcConsistent(GenerateMockData(symbol, u).value)
  {
    BaselinesConsistent(symbol);
  }
}
