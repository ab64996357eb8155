/** The synthetic series behind the charts: `generateRandomDates` and the row
    builder of the dashboard's first memoised computation. Every
    `Math.random()` result is a parameter: a draw in `[0, 1)`. */
module SeriesGenerator {
  import opened ChartData

  predicate IsDraw(r: real) {
    0.0 <= r < 1.0
  }

  predicate AllDraws(draws: seq<real>) {
    forall i :: 0 <= i < |draws| ==> IsDraw(draws[i])
  }

  /** A Date built from a fractional millisecond count keeps its integral
      part: the count is truncated toward zero. */
  function Trunc(x: real): int {
    if x >= 0.0 then x.Floor else -((-x).Floor)
  }

  lemma TruncBetween(x: real, lo: int, hi: int)
    requires lo as real <= x <= hi as real
    ensures lo <= Trunc(x) <= hi
  {
  }

  /** `new Date(start + Math.random() * (end - start))`, as a time value in milliseconds. */
  function PickTime(startMs: int, endMs: int, draw: real): int {
    Trunc(startMs as real + draw * (endMs - startMs) as real)
  }

  /** `toISOString().split('T')[0]`: the UTC calendar day a time value falls on. */
  function DayOf(t: int): Day {
    t / MillisPerDay
  }

  lemma {:induction false} PickTimeWithin(startMs: int, endMs: int, draw: real)
    requires startMs <= endMs && IsDraw(draw)
    ensures startMs <= PickTime(startMs, endMs, draw) <= endMs
  {
    var span := (endMs - startMs) as real;
    var offset := draw * span;
    assert 0.0 <= offset by {
      assert 0.0 <= draw && 0.0 <= span;
    }
    if span > 0.0 {
      assert span - offset == (1.0 - draw) * span;
      assert 0.0 < (1.0 - draw) * span;
    }
    TruncBetween(startMs as real + offset, startMs, endMs);
  }

  lemma DayOfMonotone(s: int, t: int)
    requires s <= t
    ensures DayOf(s) <= DayOf(t)
  {
  }

  /** The list `generateRandomDates(start, end, n)` has built once `n`
      iterations have run: iteration `i` pushes the day of draw `i`. */
  function RandomDates(startMs: int, endMs: int, n: int, draws: seq<real>): (dates: seq<Day>)
    requires n <= |draws|
    ensures |dates| == if n <= 0 then 0 else n
  {
    if n <= 0 then []
    else RandomDates(startMs, endMs, n - 1, draws) + [DayOf(PickTime(startMs, endMs, draws[n - 1]))]
  }

  /** Entry `k` of the list is the day of draw `k`. */
  lemma {:induction false} RandomDatesAt(startMs: int, endMs: int, n: int, draws: seq<real>)
    requires n <= |draws|
    ensures forall k :: 0 <= k < |RandomDates(startMs, endMs, n, draws)| ==>
              RandomDates(startMs, endMs, n, draws)[k] == DayOf(PickTime(startMs, endMs, draws[k]))
  {
    if n > 0 {
      RandomDatesAt(startMs, endMs, n - 1, draws);
    }
  }

  /** Every generated date lies between the start day and the end day, inclusive. */
  lemma RandomDatesWithin(startMs: int, endMs: int, n: int, draws: seq<real>)
    requires n <= |draws| && startMs <= endMs && AllDraws(draws)
    ensures forall k :: 0 <= k < |RandomDates(startMs, endMs, n, draws)| ==>
              DayOf(startMs) <= RandomDates(startMs, endMs, n, draws)[k] <= DayOf(endMs)
  {
    RandomDatesAt(startMs, endMs, n, draws);
    forall k | 0 <= k < |RandomDates(startMs, endMs, n, draws)|
      ensures DayOf(startMs) <= RandomDates(startMs, endMs, n, draws)[k] <= DayOf(endMs)
    {
      PickTimeWithin(startMs, endMs, draws[k]);
      DayOfMonotone(startMs, PickTime(startMs, endMs, draws[k]));
      DayOfMonotone(PickTime(startMs, endMs, draws[k]), endMs);
    }
  }

  /** With a start equal to the end, every date is that one day. */
  lemma RandomDatesDegenerate(t: int, n: int, draws: seq<real>)
    requires n <= |draws|
    ensures forall k :: 0 <= k < |RandomDates(t, t, n, draws)| ==> RandomDates(t, t, n, draws)[k] == DayOf(t)
  {
    RandomDatesAt(t, t, n, draws);
  }

  /** `generateRandomDates`: a loop that pushes one date per iteration onto a
      fresh list. Draw `i` is the `Math.random()` of iteration `i`. */
  method GenerateRandomDates(startMs: int, endMs: int, numDates: int, draws: seq<real>)
    returns (dates: seq<Day>)
    requires numDates <= |draws|
    ensures dates == RandomDates(startMs, endMs, numDates, draws)
    ensures |dates| == if numDates <= 0 then 0 else numDates
    ensures forall k :: 0 <= k < |dates| ==> dates[k] == DayOf(PickTime(startMs, endMs, draws[k]))
  {
    dates := [];
    var i := 0;
    while i < numDates
      invariant 0 <= i && (i <= numDates || i == 0)
      invariant dates == RandomDates(startMs, endMs, i, draws)
    {
      var t := PickTime(startMs, endMs, draws[i]);
      dates := dates + [DayOf(t)];
      i := i + 1;
    }
    RandomDatesAt(startMs, endMs, numDates, draws);
  }

  /** The four draws one row consumes, in column order. */
  datatype MetricDraws = MetricDraws(income: real, sales: real, expenses: real, profit: real)

  predicate ValidMetricDraws(d: MetricDraws) {
    IsDraw(d.income) && IsDraw(d.sales) && IsDraw(d.expenses) && IsDraw(d.profit)
  }

  /** `Math.floor(Math.random() * n)`. */
  function Scaled(draw: real, n: nat): int {
    (draw * n as real).Floor
  }

  lemma {:induction false} ScaledBelow(draw: real, n: nat)
    requires IsDraw(draw) && n > 0
    ensures 0 <= Scaled(draw, n) < n
  {
    var x := draw * n as real;
    assert 0.0 <= x;
    assert n as real - x == (1.0 - draw) * n as real;
    assert x < n as real;
  }

  /** The row the map callback builds for one date. */
  function MakeRow(date: Day, d: MetricDraws): Row {
    Row(date, Scaled(d.income, 100), Scaled(d.sales, 100), Scaled(d.expenses, 80), Scaled(d.profit, 60))
  }

  lemma MakeRowInRange(date: Day, d: MetricDraws)
    requires ValidMetricDraws(d)
    ensures MakeRow(date, d).date == date && InRange(MakeRow(date, d))
  {
    ScaledBelow(d.income, 100);
    ScaledBelow(d.sales, 100);
    ScaledBelow(d.expenses, 80);
    ScaledBelow(d.profit, 60);
  }

  /** `randomDates.map(date => [date, ...four scaled draws])`: row `i` is built from date `i`. */
  function BuildRows(dates: seq<Day>, draws: seq<MetricDraws>): seq<Row>
    requires |dates| <= |draws|
  {
    seq(|dates|, i requires 0 <= i < |dates| => MakeRow(dates[i], draws[i]))
  }

  /** One row per date, in date-list order, the date in column 0 and every
      metric within its generation range. */
  lemma BuildRowsShape(dates: seq<Day>, draws: seq<MetricDraws>)
    requires |dates| <= |draws|
    requires forall i :: 0 <= i < |draws| ==> ValidMetricDraws(draws[i])
    ensures |BuildRows(dates, draws)| == |dates|
    ensures forall i :: 0 <= i < |dates| ==>
              BuildRows(dates, draws)[i].date == dates[i] && InRange(BuildRows(dates, draws)[i])
  {
    forall i | 0 <= i < |dates|
      ensures BuildRows(dates, draws)[i].date == dates[i] && InRange(BuildRows(dates, draws)[i])
    {
      MakeRowInRange(dates[i], draws[i]);
    }
  }

  /** 2023-01-01T00:00:00Z and 2023-12-31T00:00:00Z in milliseconds. */
  const StartMs: int := 1672531200000
  const EndMs: int := 1703980800000
  const SampleCount: int := 13

  /** The day numbers of 2023-01-01 and 2023-12-31. */
  const FirstDay: Day := 19358
  const LastDay: Day := 19722

  /** The first memoised computation: thirteen dates in 2023, then one row per date. */
  method GenerateChartData(dateDraws: seq<real>, metricDraws: seq<MetricDraws>)
    returns (header: seq<string>, data: seq<Row>)
    requires |dateDraws| >= SampleCount && |metricDraws| >= SampleCount
    requires AllDraws(dateDraws)
    requires forall i :: 0 <= i < |metricDraws| ==> ValidMetricDraws(metricDraws[i])
    ensures header == Header
    ensures data == BuildRows(RandomDates(StartMs, EndMs, SampleCount, dateDraws), metricDraws)
    ensures |data| == SampleCount
    ensures forall i :: 0 <= i < |data| ==> InRange(data[i]) && FirstDay <= data[i].date <= LastDay
  {
    var randomDates := GenerateRandomDates(StartMs, EndMs, SampleCount, dateDraws);
    header := Header;
    data := BuildRows(randomDates, metricDraws);
    RandomDatesWithin(StartMs, EndMs, SampleCount, dateDraws);
    BuildRowsShape(randomDates, metricDraws);
  }
}
