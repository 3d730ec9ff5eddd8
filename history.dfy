/** The synthetic historical series behind the comparison chart: one point per
    day over the selected period. Only its shape is modelled: how many points,
    and on which days. The price of each point is the baseline price times a
    multiplier supplied from outside. */
module History {
  import opened Wrappers
  import opened MockData

  /** Milliseconds per day. */
  const DayMs: int := 86400000

  /** One chart point: a UTC day number (days since the epoch) and a price. */
  datatype HistoryPoint = HistoryPoint(day: int, price: real)

  /** Day count of a preset period: 1M = 30, 6M = 180, 1Y = 365, 3Y = 1095,
      anything else 180. */
  function PresetDays(period: string): (days: nat)
    ensures period == "1M" ==> days == 30
    ensures period == "6M" ==> days == 180
    ensures period == "1Y" ==> days == 365
    ensures period == "3Y" ==> days == 1095
    ensures period !in {"1M", "6M", "1Y", "3Y"} ==> days == 180
  {
    match period
    case "1M" => 30
    case "6M" => 180
    case "1Y" => 365
    case "3Y" => 1095
    case _ => 180
  }

  /** `Math.ceil(ms / DayMs)` for a whole number of milliseconds. */
  function CeilDays(ms: int): (d: int)
    ensures (d - 1) * DayMs < ms <= d * DayMs
  {
    (ms + DayMs - 1) / DayMs
  }

  /** A custom range is used when the period is "custom" and a start is given. */
  predicate IsCustom(period: string, startDate: Option<int>)
  {
    period == "custom" && startDate.Some?
  }

  /** The number of days the series spans (negative for a custom range that
      ends before it starts). The end defaults to now. */
  function SeriesDays(period: string, startDate: Option<int>, endDate: Option<int>, now: int): int
  {
    if IsCustom(period, startDate) then
      CeilDays((if endDate.Some? then endDate.value else now) - startDate.value)
    else PresetDays(period)
  }

  /** The day of the first point: the custom start, or `days` days before today. */
  function FirstDay(period: string, startDate: Option<int>, now: int): int
  {
    if IsCustom(period, startDate) then startDate.value / DayMs
    else now / DayMs - PresetDays(period)
  }

  /** The series of `symbol` for the period: empty for an unknown instrument,
      otherwise `days + 1` points on consecutive days from the first day. */
  method GenerateHistoricalData(symbol: string, period: string, startDate: Option<int>, endDate: Option<int>,
                                now: int, multiplier: nat -> real)
    returns (data: seq<HistoryPoint>)
    ensures symbol !in Baselines ==> data == []
    ensures symbol in Baselines ==>
      var days := SeriesDays(period, startDate, endDate, now);
      |data| == (if days < 0 then 0 else days + 1)
    ensures forall i :: 0 <= i < |data| ==>
      data[i].day == FirstDay(period, startDate, now) + i
      && data[i].price == Baselines[symbol].price * multiplier(i)
  {
    if symbol !in Baselines {
      return [];
    }
    var days, start;
    if IsCustom(period, startDate) {
      var end := if endDate.Some? then endDate.value else now;
      start := startDate.value / DayMs;
      days := CeilDays(end - startDate.value);
    } else {
      days := PresetDays(period);
      start := now / DayMs - days;
    }
    var basePrice := Baselines[symbol].price;
    data := [];
    var i := 0;
    while i <= days
      invariant 0 <= i && (days < 0 ==> i == 0) && (days >= 0 ==> i <= days + 1)
      invariant |data| == i
      invariant forall j :: 0 <= j < i ==> data[j].day == start + j && data[j].price == basePrice * multiplier(j)
    {
      data := data + [HistoryPoint(start + i, basePrice * multiplier(i))];
      i := i + 1;
    }
  }

  /** Consecutive points are exactly one day apart, so the days rise strictly. */
  lemma DaysRiseByOne(data: seq<HistoryPoint>, first: int)
    requires forall i :: 0 <= i < |data| ==> data[i].day == first + i
    ensures forall i, j :: 0 <= i < j < |data| ==> data[i].day < data[j].day
    ensures forall i :: 0 < i < |data| ==> data[i].day == data[i - 1].day + 1
  {
  }

  /** A preset series ends today: its last point is the day of `now`. */
  lemma PresetSeriesEndsToday(period: string, startDate: Option<int>, endDate: Option<int>, now: int)
    requires !IsCustom(period, startDate)
    ensures SeriesDays(period, startDate, endDate, now) >= 0
    ensures FirstDay(period, startDate, now) + SeriesDays(period, startDate, endDate, now) == now / DayMs
  {
  }

  /** A one-month chart has 31 points, the first 30 days before today. */
  lemma OneMonthHas31Points(startDate: Option<int>, endDate: Option<int>, now: int)
    ensures SeriesDays("1M", startDate, endDate, now) + 1 == 31
    ensures FirstDay("1M", startDate, now) == now / DayMs - 30
  {
  }

  /** A custom range covers its whole span: the last point's day is no earlier
      than the span in whole days, and less than one day later. */
  lemma CustomSeriesCoversRange(period: string, start: int, end: int, now: int)
    requires IsCustom(period, Some(start)) && start <= end
    ensures var days := SeriesDays(period, Some(start), Some(end), now);
      days >= 0 && end - start <= days * DayMs < end - start + DayMs
  {
  }
}
