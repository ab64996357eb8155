/** The pie chart's values: each metric's column summed over all rows with
    `data.reduce((sum, row) => sum + v, 0)`. */
module PieChart {
  import opened ChartData
  import Analytics

  /** The column sum, as an independent reference: first value plus the rest. */
  function Sum(s: seq<int>): int {
    if s == [] then 0 else s[0] + Sum(s[1..])
  }

  /** `data.reduce((sum, row) => sum + Value(row, m), acc)`, left to right. */
  function ReduceColumn(acc: int, data: seq<Row>, m: Metric): int
    decreases |data|
  {
    if data == [] then acc else ReduceColumn(acc + Value(data[0], m), data[1..], m)
  }

  /** The reduce adds the column's sum to its starting value. */
  lemma {:induction false} ReduceIsSum(acc: int, data: seq<Row>, m: Metric)
    ensures ReduceColumn(acc, data, m) == acc + Sum(Column(data, m))
    decreases |data|
  {
    if data != [] {
      ReduceIsSum(acc + Value(data[0], m), data[1..], m);
      assert Column(data, m)[1..] == Column(data[1..], m);
    }
  }

  /** The four pie values, in the order income, sales, expenses, profit. */
  function PieTotals(data: seq<Row>): (t: PerMetric<int>)
    ensures forall m: Metric :: t.Get(m) == Sum(Column(data, m))
    ensures data == [] ==> t == PerMetric(0, 0, 0, 0)
  {
    var t := PerMetric(ReduceColumn(0, data, Income), ReduceColumn(0, data, Sales),
                       ReduceColumn(0, data, Expenses), ReduceColumn(0, data, Profit));
    PieTotalsAreSums(data, t);
    t
  }

  lemma PieTotalsAreSums(data: seq<Row>, t: PerMetric<int>)
    requires t == PerMetric(ReduceColumn(0, data, Income), ReduceColumn(0, data, Sales),
                            ReduceColumn(0, data, Expenses), ReduceColumn(0, data, Profit))
    ensures forall m: Metric :: t.Get(m) == Sum(Column(data, m))
  {
    forall m: Metric
      ensures t.Get(m) == Sum(Column(data, m))
    {
      ReduceIsSum(0, data, m);
      match m
      case Income =>
      case Sales =>
      case Expenses =>
      case Profit =>
    }
  }

  /** Generated rows give pie values between 0 and the row count times the
      largest value the metric can take. */
  lemma {:induction false} TotalWithinBounds(data: seq<Row>, m: Metric)
    requires forall i :: 0 <= i < |data| ==> InRange(data[i])
    ensures 0 <= Sum(Column(data, m)) <= |data| * (Bound(m) - 1)
    decreases |data|
  {
    if data != [] {
      TotalWithinBounds(data[1..], m);
      assert Column(data, m)[1..] == Column(data[1..], m);
      InRangeValue(data[0], m);
    }
  }

  /** With no negative values, a metric's pie value is at least its reported
      maximum and at most the row count times that maximum. */
  lemma {:induction false} TotalBracketsMaximum(data: seq<Row>, m: Metric)
    requires |data| > 0
    requires forall i :: 0 <= i < |data| ==> Value(data[i], m) >= 0
    ensures Analytics.MaxColumn(data, m) <= Sum(Column(data, m)) <= |data| * Analytics.MaxColumn(data, m)
  {
    var col := Column(data, m);
    var max := Analytics.MaxOf(col);
    SumBrackets(col, max);
  }

  lemma {:induction false} SumBrackets(s: seq<int>, max: int)
    requires |s| > 0 && max in s
    requires forall i :: 0 <= i < |s| ==> 0 <= s[i] <= max
    ensures max <= Sum(s) <= |s| * max
  {
    SumAtLeastMember(s, max);
    SumNonnegativeAtMost(s, max);
  }

  lemma {:induction false} SumAtLeastMember(s: seq<int>, x: int)
    requires x in s
    requires forall i :: 0 <= i < |s| ==> 0 <= s[i]
    ensures x <= Sum(s)
    decreases |s|
  {
    if s[0] == x {
      SumNonnegative(s[1..]);
    } else {
      assert x in s[1..];
      SumAtLeastMember(s[1..], x);
    }
  }

  lemma {:induction false} SumNonnegative(s: seq<int>)
    requires forall i :: 0 <= i < |s| ==> 0 <= s[i]
    ensures 0 <= Sum(s)
    decreases |s|
  {
    if s != [] {
      SumNonnegative(s[1..]);
    }
  }

  lemma {:induction false} SumNonnegativeAtMost(s: seq<int>, max: int)
    requires forall i :: 0 <= i < |s| ==> 0 <= s[i] <= max
    ensures 0 <= Sum(s) <= |s| * max
    decreases |s|
  {
    if s != [] {
      SumNonnegativeAtMost(s[1..], max);
      assert |s| * max == (|s| - 1) * max + max;
    }
  }
}
