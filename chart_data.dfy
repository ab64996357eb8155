/** The chart rows the dashboard generates and analyses:
    `[date, income, sales, expenses, profit]`, with the fixed header that
    names the five columns. */
module ChartData {

  /** A calendar day, counted in whole days since 1970-01-01 (UTC). It stands
      for the `YYYY-MM-DD` string that names that day. */
  type Day = int

  const MillisPerDay: int := 86400000

  /** The header row every chart receives ahead of the data rows. */
  const Header: seq<string> := ["Date", "Income", "Sales", "Expenses", "Profit"]

  datatype Metric = Income | Sales | Expenses | Profit

  /** One chart row, `[date, income, sales, expenses, profit]`. */
  datatype Row = Row(date: Day, income: int, sales: int, expenses: int, profit: int)

  /** One value per metric, in the fixed order income, sales, expenses, profit. */
  datatype PerMetric<T> = PerMetric(income: T, sales: T, expenses: T, profit: T)
  {
    function Get(m: Metric): T {
      match m
      case Income => income
      case Sales => sales
      case Expenses => expenses
      case Profit => profit
    }
  }

  /** The value a row holds in the column of metric `m`. */
  function Value(row: Row, m: Metric): int {
    match m
    case Income => row.income
    case Sales => row.sales
    case Expenses => row.expenses
    case Profit => row.profit
  }

  /** The column of metric `m` in row order, as `data.map(([, ..., v]) => v)` gives it. */
  function Column(data: seq<Row>, m: Metric): (col: seq<int>)
    ensures |col| == |data|
    ensures forall i :: 0 <= i < |data| ==> col[i] == Value(data[i], m)
  {
    seq(|data|, i requires 0 <= i < |data| => Value(data[i], m))
  }

  /** The exclusive upper bound of the random values generated for metric `m`. */
  function Bound(m: Metric): nat {
    match m
    case Income => 100
    case Sales => 100
    case Expenses => 80
    case Profit => 60
  }

  /** Every metric of the row lies in `[0, Bound(m))`. */
  predicate InRange(row: Row) {
    0 <= row.income < 100 && 0 <= row.sales < 100 &&
    0 <= row.expenses < 80 && 0 <= row.profit < 60
  }

  lemma InRangeValue(row: Row, m: Metric)
    requires InRange(row)
    ensures 0 <= Value(row, m) < Bound(m)
  {
  }
}
