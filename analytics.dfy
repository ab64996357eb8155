/** The `analyzeChartData` action the assistant may invoke: the maximum of
    every metric over the chart rows, and whether each metric went up from
    the first row to the last, rendered as one answer text. */
module Analytics {
  import opened ChartData

  /** `Math.max(...s)` over a non-empty list: an element of the list that no
      element exceeds. */
  function MaxOf(s: seq<int>): (m: int)
    requires |s| > 0
    ensures m in s
    ensures forall i :: 0 <= i < |s| ==> s[i] <= m
  {
    if |s| == 1 then s[0]
    else
      var rest := MaxOf(s[1..]);
      assert rest in s[1..];
      if s[0] >= rest then s[0] else rest
  }

  datatype Trend = Increasing | Decreasing

  /** The sign rule of the handler: a strictly positive change from the first
      value to the last is an increase; anything else, no change included,
      is reported as a decrease. */
  function TrendOf(first: int, last: int): Trend {
    if last - first > 0 then Increasing else Decreasing
  }

  datatype Analysis = Analysis(maxima: PerMetric<int>, trends: PerMetric<Trend>)

  /** Reading `data[0]` of an empty series throws; that is the one failure. */
  datatype AnalyticsError = EmptySeries

  datatype Result<T> = Ok(value: T) | Err(error: AnalyticsError)

  /** The maximum of the column of metric `m`. */
  function MaxColumn(data: seq<Row>, m: Metric): int
    requires |data| > 0
  {
    MaxOf(Column(data, m))
  }

  /** The change of metric `m` between the first and the last row. */
  function TrendColumn(data: seq<Row>, m: Metric): Trend
    requires |data| > 0
  {
    TrendOf(Value(data[0], m), Value(data[|data| - 1], m))
  }

  /** The handler's figures: the maxima and the four first-to-last trends. */
  function Analyze(data: seq<Row>): (r: Result<Analysis>)
    ensures r.Err? <==> data == []
    ensures r.Ok? ==> forall m: Metric, i :: 0 <= i < |data| ==> Value(data[i], m) <= r.value.maxima.Get(m)
    ensures r.Ok? ==> forall m: Metric :: exists i :: 0 <= i < |data| && Value(data[i], m) == r.value.maxima.Get(m)
    ensures r.Ok? ==> forall m: Metric ::
              r.value.trends.Get(m) == Increasing <==> Value(data[0], m) < Value(data[|data| - 1], m)
  {
    if data == [] then Err(EmptySeries)
    else
      var a := Analysis(
        PerMetric(MaxColumn(data, Income), MaxColumn(data, Sales), MaxColumn(data, Expenses), MaxColumn(data, Profit)),
        PerMetric(TrendColumn(data, Income), TrendColumn(data, Sales), TrendColumn(data, Expenses), TrendColumn(data, Profit)));
      AnalysisPerMetric(data, a);
      Ok(a)
  }

  /** Each metric's entry of the analysis is that metric's maximum and trend. */
  lemma AnalysisPerMetric(data: seq<Row>, a: Analysis)
    requires |data| > 0
    requires a.maxima == PerMetric(MaxColumn(data, Income), MaxColumn(data, Sales), MaxColumn(data, Expenses), MaxColumn(data, Profit))
    requires a.trends == PerMetric(TrendColumn(data, Income), TrendColumn(data, Sales), TrendColumn(data, Expenses), TrendColumn(data, Profit))
    ensures forall m: Metric, i :: 0 <= i < |data| ==> Value(data[i], m) <= a.maxima.Get(m)
    ensures forall m: Metric :: exists i :: 0 <= i < |data| && Value(data[i], m) == a.maxima.Get(m)
    ensures forall m: Metric :: a.trends.Get(m) == Increasing <==> Value(data[0], m) < Value(data[|data| - 1], m)
  {
    forall m: Metric
      ensures a.maxima.Get(m) == MaxColumn(data, m) && a.trends.Get(m) == TrendColumn(data, m)
    {
      match m
      case Income =>
      case Sales =>
      case Expenses =>
      case Profit =>
    }
    forall m: Metric
      ensures exists i :: 0 <= i < |data| && Value(data[i], m) == a.maxima.Get(m)
    {
      var col := Column(data, m);
      var i :| 0 <= i < |col| && col[i] == MaxOf(col);
      assert Value(data[i], m) == a.maxima.Get(m);
    }
  }

  /** Over generated rows, every reported maximum lies within its metric's generation range. */
  lemma MaximumWithinBounds(data: seq<Row>, m: Metric)
    requires |data| > 0
    requires forall i :: 0 <= i < |data| ==> InRange(data[i])
    ensures 0 <= MaxColumn(data, m) < Bound(m)
  {
    var col := Column(data, m);
    var i :| 0 <= i < |col| && col[i] == MaxOf(col);
    InRangeValue(data[i], m);
  }

  /** The decimal digits of a natural number, most significant first. */
  function NatToString(n: nat): (s: string)
    ensures |s| > 0 && IsDigits(s)
  {
    var digit := ('0' as int + n % 10) as char;
    if n < 10 then [digit] else NatToString(n / 10) + [digit]
  }

  predicate IsDigits(s: string) {
    forall i :: 0 <= i < |s| ==> '0' <= s[i] <= '9'
  }

  /** A number interpolated into a template string, for an integral value. */
  function IntToString(n: int): string {
    if n < 0 then "-" + NatToString(-n) else NatToString(n)
  }

  /** The value of a string of decimal digits. */
  function DigitsValue(s: string): nat
    requires IsDigits(s)
  {
    if s == [] then 0 else DigitsValue(s[..|s| - 1]) * 10 + (s[|s| - 1] as int - '0' as int)
  }

  /** The value of an optionally signed decimal numeral. */
  function ReadInt(s: string): int
    requires IsDigits(s) || (|s| > 0 && s[0] == '-' && IsDigits(s[1..]))
  {
    if |s| > 0 && s[0] == '-' then -(DigitsValue(s[1..]) as int) else DigitsValue(s)
  }

  lemma {:induction false} NatToStringRoundTrip(n: nat)
    ensures DigitsValue(NatToString(n)) == n
  {
    var s := NatToString(n);
    if n >= 10 {
      NatToStringRoundTrip(n / 10);
      assert s[..|s| - 1] == NatToString(n / 10);
    }
  }

  /** Reading back a rendered integer gives the integer. */
  lemma IntToStringRoundTrip(n: int)
    ensures var s := IntToString(n);
            (IsDigits(s) || (|s| > 0 && s[0] == '-' && IsDigits(s[1..]))) && ReadInt(s) == n
  {
    if n < 0 {
      NatToStringRoundTrip(-n);
      assert IntToString(n)[1..] == NatToString(-n);
    } else {
      NatToStringRoundTrip(n);
    }
  }

  function TrendWord(t: Trend): string {
    if t == Increasing then "increasing" else "decreasing"
  }

  /** The answer text: the four maxima, then the four trends, in the order
      income, sales, expenses, profit. */
  function Answer(a: Analysis): string {
    "The maximum values are: Income: " + IntToString(a.maxima.income)
    + ", Sales: " + IntToString(a.maxima.sales)
    + ", Expenses: " + IntToString(a.maxima.expenses)
    + ", Profit: " + IntToString(a.maxima.profit)
    + ". Trends are: Income is " + TrendWord(a.trends.income)
    + ", Sales is " + TrendWord(a.trends.sales)
    + ", Expenses is " + TrendWord(a.trends.expenses)
    + ", Profit is " + TrendWord(a.trends.profit) + "."
  }

  /** The action's handler. The assistant's `query` is accepted and not read. */
  function AnalyzeChartData(data: seq<Row>, query: string): (r: Result<string>)
    ensures r.Err? <==> data == []
    ensures r.Ok? ==> r.value == Answer(Analyze(data).value)
  {
    match Analyze(data)
    case Ok(a) => Ok(Answer(a))
    case Err(e) => Err(e)
  }

  /** The answer is the same whatever the query says. */
  lemma AnswerIgnoresQuery(data: seq<Row>, q1: string, q2: string)
    ensures AnalyzeChartData(data, q1) == AnalyzeChartData(data, q2)
  {
  }
}
