# Dashboard financial metrics, modelled in Dafny

The dashboard page of the banking app does four small computations:

- it generates a synthetic chart series: thirteen random dates in 2023, and one row
  `[date, income, sales, expenses, profit]` per date, each metric a random integer
  below 100, 100, 80 and 60 (`SeriesGenerator`, over the row types of `ChartData`);
- it folds the credit-line policies `{spent, limit}` into the balance, the used and
  total credit limit, and a usage percentage (`AccountAggregator`);
- it answers the assistant's `analyzeChartData` action with each metric's maximum and
  its first-to-last trend (`Analytics`);
- it sums each metric's column for the pie chart (`PieChart`).

`generateRandomDates` pushes onto a list inside a `for` loop, so it is a method with a
`while` loop proved against the push-by-push function `RandomDates`. Everything else is
`map`/`reduce`/`Math.max` expressions in the source, and is modelled as functions and
lemmas.

Modelling choices:

- Every `Math.random()` result is a parameter, a real in `[0, 1)`. `generateRandomDates`
  takes one draw per date and each row four draws (`MetricDraws`).
- A date is the number of its day since 1970-01-01 UTC (`ChartData.Day`). This stands
  for its `YYYY-MM-DD` string. A `Date` built from a fractional millisecond count
  truncates it toward zero (`Trunc`), and `toISOString` takes the UTC day (`DayOf`).
- Amounts and metric values are integers and arithmetic is exact.
- `used / total * 100` is a `Quotient`: a finite real, or the infinities and NaN that
  JavaScript gives when dividing by zero. A zero total is not guarded, as in the source.
- The action handler throws when the series is empty, because it reads `data[0]`.
  Here that is the result `Err(EmptySeries)`.

## Model

| member | source | states |
|---|---|---|
| `SeriesGenerator.GenerateRandomDates` | src/app/page.tsx:17-24 | the list has exactly `numDates` entries, none when `numDates <= 0`; entry `k` is the day of the time picked with draw `k`; the list equals `RandomDates`, which pushes one date per iteration |
| `SeriesGenerator.RandomDatesAt` | src/app/page.tsx:18-23 | entry `k` of the list built after `n` iterations is the date drawn in iteration `k` |
| `SeriesGenerator.PickTimeWithin` | src/app/page.tsx:20 | `start + random * (end - start)`, truncated to a time value, lies in `[start, end]` when `start <= end` |
| `SeriesGenerator.RandomDatesWithin` | src/app/page.tsx:18-22 | every generated date lies between the start day and the end day inclusive |
| `SeriesGenerator.RandomDatesDegenerate` | src/app/page.tsx:20-21 | with start equal to end, every generated date is that one day |
| `SeriesGenerator.ScaledBelow` | src/app/page.tsx:35-38 | `Math.floor(random * n)` lies in `[0, n)` |
| `SeriesGenerator.MakeRowInRange` | src/app/page.tsx:33-39 | a built row carries its date in column 0, and income, sales < 100, expenses < 80, profit < 60, all non-negative |
| `SeriesGenerator.BuildRowsShape` | src/app/page.tsx:33-39 | one row per date, in date-list order, date in column 0, every metric within its range |
| `SeriesGenerator.GenerateChartData` | src/app/page.tsx:30-41 | the header is `Date, Income, Sales, Expenses, Profit`; there are 13 rows, each in range and dated between 2023-01-01 and 2023-12-31 |
| `AccountAggregator.FoldAdds` | src/app/page.tsx:44-52 | the reduce adds the total spent to `balance` and to `limit.used`, and the total limit to `limit.total` |
| `AccountAggregator.Aggregate` | src/app/page.tsx:43-52 | `balance` and `limit.used` equal the sum of `spent`; `limit.total` equals the sum of `limit`; no policies give all zeros |
| `AccountAggregator.Summarize` | src/app/page.tsx:43-62 | balance and total are the sums; the percentage is finite exactly when the total is non-zero, and then times the total equals 100 times the amount spent; a zero total gives an infinity of the sign of the amount spent, or NaN |
| `AccountAggregator.SummarizeEmpty` | src/app/page.tsx:52-53 | no policies give balance 0, total 0 and a NaN percentage |
| `AccountAggregator.TotalsAppend` | src/app/page.tsx:44-52 | the totals of two lists joined are the sums of their totals |
| `AccountAggregator.AggregatePermutation` | src/app/page.tsx:44-52 | policies in any order aggregate to the same figures |
| `AccountAggregator.UsageWithinLimits` | src/app/page.tsx:53 | when every policy has `0 <= spent <= limit` and the total is positive, the percentage is finite and lies in `[0, 100]` |
| `Analytics.MaxOf` | src/app/page.tsx:77-80 | `Math.max` over a non-empty list is an element of the list and no element exceeds it |
| `Analytics.Analyze` | src/app/page.tsx:76-87 | fails exactly on an empty series; otherwise each metric's maximum bounds every row's value and is some row's value, and its trend is `Increasing` exactly when the last row's value exceeds the first row's value, so no change reports `Decreasing` |
| `Analytics.MaximumWithinBounds` | src/app/page.tsx:77-80 | over generated rows, each maximum lies in its metric's generation range |
| `Analytics.IntToStringRoundTrip` | src/app/page.tsx:87 | a number written into the answer text reads back as that number |
| `Analytics.AnalyzeChartData` | src/app/page.tsx:76-88 | fails exactly on an empty series; otherwise the answer text lists the four maxima and then the four trends |
| `Analytics.AnswerIgnoresQuery` | src/app/page.tsx:65-76 | the answer does not depend on the query text |
| `PieChart.ReduceIsSum` | src/app/page.tsx:200-203 | the column reduce from 0 equals the column's sum |
| `PieChart.PieTotals` | src/app/page.tsx:198-204 | each pie value is its metric's column sum; an empty series gives four zeros |
| `PieChart.TotalWithinBounds` | src/app/page.tsx:200-203 | over generated rows, a pie value lies between 0 and the row count times the largest value of that metric |
| `PieChart.TotalBracketsMaximum` | src/app/page.tsx:200-203 | with non-negative values, a pie value is at least the metric's maximum and at most the row count times that maximum |

## Left out

- The React component, its tabs, cards, progress bar and layout: this is presentation.
- The `useMemo` caching: generate once, recompute the aggregate when `policies` changes.
  This is a framework lifecycle. The two computations are modelled as plain members.
- The registration with the assistant plugin (`useCopilotAction`, `useCopilotReadable`).
  These are foreign callbacks. Only the handler's computation is modelled. The readable
  context publishes `data` unchanged and has no computation of its own.
- The chart widgets and their options, which come from a foreign library. The pie chart's
  `["Metric", "Value"]` table is reduced to its four values.
- `Math.random` itself: its results are parameters.
- Calendar formatting: `toISOString` and the `YYYY-MM-DD` string are not modelled. A
  date is its day number.
- Local time zones: `new Date(2023, 0, 1)` is local midnight. The model takes
  2023-01-01 and 2023-12-31 at midnight UTC (`StartMs`, `EndMs`).
- Floating point: rounding in `random * span`, in `random * 100` and in the percentage is
  not modelled, because arithmetic here is exact. A fractional `numDates` is not modelled
  because `numDates` is an integer here.
- The data source `useCreditCards` and the transaction list are not part of this model.
