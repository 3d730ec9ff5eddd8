/** The conversion engine: turns a provider's exchange-rate and gold-spot payloads
    into CNY-denominated price records, with open/high/low synthesised around
    the converted price from one random draw. */
module Conversion {
  import opened Wrappers

  /** One draw of `Math.random()`: uniform in [0, 1). */
  type Draw = u: real | 0.0 <= u < 1.0

  /** A field of a decoded JSON payload: a number, or an object whose fields
      are numbers. */
  datatype Field = Num(n: real) | Obj(fields: map<string, real>)

  /** A decoded JSON payload as a provider returned it. */
  type RawQuote = map<string, Field>

  /** The price record every instrument card displays. */
  datatype PriceRecord = PriceRecord(
    price: real, change: real, changePercent: real,
    open: real, high: real, low: real)

  /** Troy ounce in grams. */
  const GramsPerOunce: real := 31.1035
  /** Defaults used when a rate is missing or zero. */
  const DefaultCnyPerUsd: real := 7.25
  const DefaultChfPerUsd: real := 0.88
  const DefaultJpyPerUsd: real := 155.0
  /** Forex volatility used to synthesise the change: 0.2 % of the price. */
  const ForexVolatility: real := 0.002
  /** Gold change is drawn from [-GoldSpread/2, GoldSpread/2) CNY. */
  const GoldSpread: real := 5.0

  /** JavaScript `x || d` for a numeric field that may be missing: a missing
      or zero value yields the default. */
  function NumOr(m: map<string, real>, key: string, default: real): (r: real)
    ensures key in m && m[key] != 0.0 ==> r == m[key]
    ensures (key !in m || m[key] == 0.0) ==> r == default
  {
    if key in m && m[key] != 0.0 then m[key] else default
  }

  /** The numeric fields of a payload. */
  function Numbers(q: RawQuote): (m: map<string, real>)
    ensures forall k :: k in m <==> k in q && q[k].Num?
    ensures forall k :: k in m ==> q[k] == Num(m[k])
  {
    map k | k in q && q[k].Num? :: q[k].n
  }

  /** `exchangeData.rates || exchangeData`: the nested `rates` object when the
      payload has a truthy one, otherwise the payload itself. A non-zero
      number under `rates` is truthy and has no fields. */
  function RatesOf(q: RawQuote): (rates: map<string, real>)
    ensures "rates" in q && q["rates"].Obj? ==> rates == q["rates"].fields
    ensures "rates" in q && q["rates"].Num? && q["rates"].n != 0.0 ==> rates == map[]
    ensures "rates" !in q || q["rates"] == Num(0.0) ==>
      && (forall k :: k in rates <==> k in q && q[k].Num?)
      && (forall k :: k in rates ==> q[k] == Num(rates[k]))
  {
    if "rates" in q then
      match q["rates"]
      case Obj(fields) => fields
      case Num(n) => if n != 0.0 then map[] else Numbers(q)
    else Numbers(q)
  }

  /** CNY per USD: `rates.CNY || rates.RMB || 7.25`. */
  function CnyPerUsd(rates: map<string, real>): (r: real)
    ensures r != 0.0
    ensures "CNY" in rates && rates["CNY"] != 0.0 ==> r == rates["CNY"]
    ensures ("CNY" !in rates || rates["CNY"] == 0.0) && "RMB" in rates && rates["RMB"] != 0.0
            ==> r == rates["RMB"]
    ensures ("CNY" !in rates || rates["CNY"] == 0.0) && ("RMB" !in rates || rates["RMB"] == 0.0)
            ==> r == DefaultCnyPerUsd
  {
    NumOr(rates, "CNY", NumOr(rates, "RMB", DefaultCnyPerUsd))
  }

  /** The CNY price of one instrument unit (one USD, one CHF, one hundred JPY)
      from USD-based rates; None for a currency the engine does not support. */
  function ForexRate(symbol: string, rates: map<string, real>): (r: Option<real>)
    ensures r.Some? <==> symbol in {"USD", "CHF", "JPY"}
    ensures r.Some? ==> r.value != 0.0
    ensures symbol == "USD" ==> r == Some(CnyPerUsd(rates))
    // one CHF costs r CNY, and one USD buys NumOr(rates, "CHF", 0.88) CHF
    ensures symbol == "CHF" ==> r.value * NumOr(rates, "CHF", DefaultChfPerUsd) == CnyPerUsd(rates)
    // one hundred JPY cost r CNY, and one USD buys NumOr(rates, "JPY", 155) JPY
    ensures symbol == "JPY" ==> r.value * NumOr(rates, "JPY", DefaultJpyPerUsd) == CnyPerUsd(rates) * 100.0
  {
    match symbol
    case "USD" => Some(CnyPerUsd(rates))
    case "CHF" => Some(CnyPerUsd(rates) / NumOr(rates, "CHF", DefaultChfPerUsd))
    case "JPY" => Some(CnyPerUsd(rates) / NumOr(rates, "JPY", DefaultJpyPerUsd) * 100.0)
    case _ => None
  }

  /** A numeric top-level field that is present and non-zero. */
  predicate TruthyNum(q: RawQuote, key: string)
  {
    key in q && q[key].Num? && q[key].n != 0.0
  }

  /** A truthy `rates` object with a truthy `XAU` rate. */
  predicate HasXauRate(q: RawQuote)
  {
    "rates" in q && q["rates"].Obj? && "XAU" in q["rates"].fields && q["rates"].fields["XAU"] != 0.0
  }

  const GoldParseError: string := "无法解析黄金价格数据"

  /** Gold spot in USD per troy ounce, read from whichever shape the provider
      returned: `price`, else the inverse of `rates.XAU`, else `gold`. */
  function GoldUsdPerOunce(q: RawQuote): (r: Result<real>)
    ensures r.Ok? <==> TruthyNum(q, "price") || HasXauRate(q) || TruthyNum(q, "gold")
    ensures r.Err? ==> r.message == GoldParseError
    ensures r.Ok? ==> r.value != 0.0
    ensures TruthyNum(q, "price") ==> r == Ok(q["price"].n)
    ensures !TruthyNum(q, "price") && HasXauRate(q) ==> r.Ok? && r.value * q["rates"].fields["XAU"] == 1.0
    ensures !TruthyNum(q, "price") && !HasXauRate(q) && TruthyNum(q, "gold") ==> r == Ok(q["gold"].n)
  {
    if TruthyNum(q, "price") then Ok(q["price"].n)
    else if HasXauRate(q) then Ok(1.0 / q["rates"].fields["XAU"])
    else if TruthyNum(q, "gold") then Ok(q["gold"].n)
    else Err(GoldParseError)
  }

  /** CNY per gram of gold from USD per ounce and CNY per USD. */
  function GoldCnyPerGram(usdPerOunce: real, cnyPerUsd: real): (r: real)
    requires usdPerOunce != 0.0 && cnyPerUsd != 0.0
    ensures r != 0.0
    ensures r * GramsPerOunce == usdPerOunce * cnyPerUsd
  {
    usdPerOunce * cnyPerUsd / GramsPerOunce
  }

  function Abs(x: real): real { if x < 0.0 then -x else x }

  /** The ordering every record keeps: `low <= open <= high` and
      `low <= price <= high`. */
  predicate OhlcConsistent(r: PriceRecord)
  {
    r.low <= r.open <= r.high && r.low <= r.price <= r.high
  }

  /** The live record around a converted price: the open sits half a change
      below the price, high and low 1.2 changes either side of it. */
  function LiveRecord(price: real, change: real): (r: PriceRecord)
    requires price != 0.0
    ensures OhlcConsistent(r)
    ensures r.price == price && r.change == change
    ensures r.changePercent * price == change * 100.0
    ensures r.price - r.open == change / 2.0
    ensures r.high - r.price == r.price - r.low == 1.2 * Abs(change)
  {
    PriceRecord(price, change, change / price * 100.0,
                price - change * 0.5, price + Abs(change) * 1.2, price - Abs(change) * 1.2)
  }

  /** The synthesised forex change: within 0.1 % of the price either way. */
  function ForexChange(price: real, u: Draw): (c: real)
    ensures Abs(c) <= 0.001 * Abs(price)
    ensures price > 0.0 ==> -0.001 * price <= c < 0.001 * price
  {
    (u - 0.5) * ForexVolatility * price
  }

  /** The synthesised gold change: in [-2.5, 2.5) CNY. */
  function GoldChange(u: Draw): (c: real)
    ensures -2.5 <= c < 2.5
  {
    (u - 0.5) * GoldSpread
  }

  /** The live forex record for a supported currency, or None. */
  function ForexRecord(symbol: string, rates: map<string, real>, u: Draw): (r: Option<PriceRecord>)
    ensures r.Some? <==> symbol in {"USD", "CHF", "JPY"}
    ensures r.Some? ==> Some(r.value.price) == ForexRate(symbol, rates)
    ensures r.Some? ==> OhlcConsistent(r.value) && Abs(r.value.change) <= 0.001 * Abs(r.value.price)
  {
    match ForexRate(symbol, rates)
    case None => None
    case Some(rate) => Some(LiveRecord(rate, ForexChange(rate, u)))
  }

  /** The live gold record from a gold payload and the exchange rates, or the
      parse error. */
  function GoldRecord(gold: RawQuote, rates: map<string, real>, u: Draw): (r: Result<PriceRecord>)
    ensures r.Ok? <==> GoldUsdPerOunce(gold).Ok?
    ensures r.Err? ==> r.message == GoldParseError
    ensures r.Ok? ==> r.value.price * GramsPerOunce == GoldUsdPerOunce(gold).value * CnyPerUsd(rates)
    ensures r.Ok? ==> OhlcConsistent(r.value) && -2.5 <= r.value.change < 2.5
  {
    match GoldUsdPerOunce(gold)
    case Err(m) => Err(m)
    case Ok(usd) => Ok(LiveRecord(GoldCnyPerGram(usd, CnyPerUsd(rates)), GoldChange(u)))
  }

  /** The worked example: rates CNY 7.20, CHF 0.90, JPY 150 and gold at 2000
      USD per ounce give USD 7.20, CHF 8.00, 100 JPY 4.80 and
      2000 * 7.20 / 31.1035 CNY per gram of gold. */
  lemma WorkedExample()
    ensures var rates := map["CNY" := 7.20, "CHF" := 0.90, "JPY" := 150.0];
      && ForexRate("USD", rates) == Some(7.20)
      && ForexRate("CHF", rates) == Some(8.0)
      && ForexRate("JPY", rates) == Some(4.8)
      && GoldUsdPerOunce(map["price" := Num(2000.0)]) == Ok(2000.0)
      && GoldCnyPerGram(2000.0, CnyPerUsd(rates)) == 2000.0 * 7.20 / GramsPerOunce
  {
    var rates := map["CNY" := 7.20, "CHF" := 0.90, "JPY" := 150.0];
    assert CnyPerUsd(rates) == 7.20;
    assert NumOr(rates, "CHF", DefaultChfPerUsd) == 0.90;
    assert NumOr(rates, "JPY", DefaultJpyPerUsd) == 150.0;
  }

  /** Missing or zero rates fall back to the documented constants: with no
      CNY, RMB, CHF or JPY rate the prices are 7.25, 7.25 / 0.88 and
      7.25 / 155 * 100. */
  lemma DefaultsWhenRatesMissing(rates: map<string, real>)
    requires forall k :: k in rates ==> k in {"CNY", "RMB", "CHF", "JPY"} ==> rates[k] == 0.0
    ensures ForexRate("USD", rates) == Some(DefaultCnyPerUsd)
    ensures ForexRate("CHF", rates) == Some(DefaultCnyPerUsd / DefaultChfPerUsd)
    ensures ForexRate("JPY", rates) == Some(DefaultCnyPerUsd / DefaultJpyPerUsd * 100.0)
  {
    assert CnyPerUsd(rates) == DefaultCnyPerUsd;
    assert NumOr(rates, "CHF", DefaultChfPerUsd) == DefaultChfPerUsd;
    assert NumOr(rates, "JPY", DefaultJpyPerUsd) == DefaultJpyPerUsd;
  }
}
