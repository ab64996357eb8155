/** The dashboard's second memoised computation: the policy records folded
    into the total balance and the credit-limit figures shown on the
    overview cards. */
module AccountAggregator {

  /** One credit line: what has been spent and what its limit is. */
  datatype Policy = Policy(spent: int, limit: int)

  datatype Limit = Limit(used: int, total: int)

  /** The accumulator of the fold: `{ balance, limit: { used, total } }`. */
  datatype Stats = Stats(balance: int, limit: Limit)

  /** The fold's initial value. */
  const Initial: Stats := Stats(0, Limit(0, 0))

  /** The reduce callback: a fresh accumulator with one more policy added in. */
  function Step(stats: Stats, policy: Policy): Stats {
    Stats(stats.balance + policy.spent,
          Limit(stats.limit.used + policy.spent, stats.limit.total + policy.limit))
  }

  /** `policies.reduce(Step, stats)`, left to right. */
  function Fold(stats: Stats, policies: seq<Policy>): Stats
    decreases |policies|
  {
    if policies == [] then stats else Fold(Step(stats, policies[0]), policies[1..])
  }

  /** The amount spent over all policies. */
  function TotalSpent(policies: seq<Policy>): int {
    if policies == [] then 0 else policies[0].spent + TotalSpent(policies[1..])
  }

  /** The credit limit over all policies. */
  function TotalLimit(policies: seq<Policy>): int {
    if policies == [] then 0 else policies[0].limit + TotalLimit(policies[1..])
  }

  /** Folding adds the policies' spending to the balance and to the used
      limit, and their limits to the total. */
  lemma {:induction false} FoldAdds(stats: Stats, policies: seq<Policy>)
    ensures Fold(stats, policies) ==
            Stats(stats.balance + TotalSpent(policies),
                  Limit(stats.limit.used + TotalSpent(policies), stats.limit.total + TotalLimit(policies)))
    decreases |policies|
  {
    if policies != [] {
      FoldAdds(Step(stats, policies[0]), policies[1..]);
    }
  }

  /** The fold from the initial value: `balance` and `limit.used` are the
      amount spent, `limit.total` the sum of the limits; no policies give zeros. */
  function Aggregate(policies: seq<Policy>): (s: Stats)
    ensures s.balance == TotalSpent(policies)
    ensures s.limit.used == TotalSpent(policies)
    ensures s.limit.total == TotalLimit(policies)
    ensures policies == [] ==> s == Initial
  {
    FoldAdds(Initial, policies);
    Fold(Initial, policies)
  }

  /** A JavaScript number that a quotient of two integers can be, computed exactly. */
  datatype Quotient = Finite(value: real) | PosInfinity | NegInfinity | NaN

  /** `a / b`: division by zero gives an infinity of the dividend's sign, or NaN for `0 / 0`. */
  function Divide(a: int, b: int): Quotient {
    if b != 0 then Finite(a as real / b as real)
    else if a > 0 then PosInfinity
    else if a < 0 then NegInfinity
    else NaN
  }

  /** `q * 100`: infinities and NaN pass through unchanged. */
  function Hundredfold(q: Quotient): Quotient {
    if q.Finite? then Finite(q.value * 100.0) else q
  }

  datatype LimitSummary = LimitSummary(total: int, usagePercentage: Quotient)

  /** What the overview cards display: the balance and the limit figures. */
  datatype Summary = Summary(balance: int, limit: LimitSummary)

  /** The aggregate with `usagePercentage = used / total * 100`. A zero total
      is not guarded: the percentage is then an infinity, or NaN when nothing
      is used either. */
  function Summarize(policies: seq<Policy>): (s: Summary)
    ensures s.balance == TotalSpent(policies)
    ensures s.limit.total == TotalLimit(policies)
    ensures s.limit.usagePercentage.Finite? <==> TotalLimit(policies) != 0
    ensures s.limit.usagePercentage.Finite? ==>
              s.limit.usagePercentage.value * TotalLimit(policies) as real == 100.0 * TotalSpent(policies) as real
    ensures TotalLimit(policies) == 0 ==>
              s.limit.usagePercentage == (if TotalSpent(policies) > 0 then PosInfinity
                                          else if TotalSpent(policies) < 0 then NegInfinity else NaN)
  {
    var stats := Aggregate(policies);
    Summary(stats.balance, LimitSummary(stats.limit.total, Hundredfold(Divide(stats.limit.used, stats.limit.total))))
  }

  /** No policies: a zero balance, a zero total and a NaN percentage. */
  lemma SummarizeEmpty()
    ensures Summarize([]) == Summary(0, LimitSummary(0, NaN))
  {
  }

  lemma {:induction false} TotalsAppend(a: seq<Policy>, b: seq<Policy>)
    ensures TotalSpent(a + b) == TotalSpent(a) + TotalSpent(b)
    ensures TotalLimit(a + b) == TotalLimit(a) + TotalLimit(b)
  {
    if a != [] {
      assert (a + b)[1..] == a[1..] + b;
      TotalsAppend(a[1..], b);
    } else {
      assert a + b == b;
    }
  }

  /** Taking policy `j` out of the list takes its amounts out of the totals. */
  lemma TotalsRemove(b: seq<Policy>, j: int)
    requires 0 <= j < |b|
    ensures TotalSpent(b) == b[j].spent + TotalSpent(b[..j] + b[j + 1..])
    ensures TotalLimit(b) == b[j].limit + TotalLimit(b[..j] + b[j + 1..])
  {
    var left, x, right := b[..j], b[j], b[j + 1..];
    assert b == (left + [x]) + right;
    assert [x][1..] == [];
    assert TotalSpent([x]) == x.spent && TotalLimit([x]) == x.limit;
    TotalsAppend(left + [x], right);
    TotalsAppend(left, [x]);
    TotalsAppend(left, right);
  }

  lemma MultisetRemove(b: seq<Policy>, j: int)
    requires 0 <= j < |b|
    ensures multiset(b[..j] + b[j + 1..]) == multiset(b) - multiset{b[j]}
  {
    assert b == b[..j] + [b[j]] + b[j + 1..];
  }

  /** The order of the policies does not matter: any permutation aggregates alike. */
  lemma {:induction false} AggregatePermutation(a: seq<Policy>, b: seq<Policy>)
    requires multiset(a) == multiset(b)
    ensures Aggregate(a) == Aggregate(b)
    decreases |a|
  {
    if a == [] {
      assert |b| == |multiset(b)| == 0;
    } else {
      var x := a[0];
      assert x in multiset(b);
      var j :| 0 <= j < |b| && b[j] == x;
      MultisetRemove(b, j);
      assert a == [x] + a[1..];
      assert multiset(a[1..]) == multiset(a) - multiset{x};
      AggregatePermutation(a[1..], b[..j] + b[j + 1..]);
      TotalsRemove(b, j);
    }
  }

  /** A part of a positive whole, as a percentage, lies in `[0, 100]`. */
  lemma PercentOfWhole(part: real, whole: real)
    requires 0.0 <= part <= whole && 0.0 < whole
    ensures 0.0 <= part / whole * 100.0 <= 100.0
  {
    var q := part / whole;
    assert q * whole == part;
  }

  /** When every policy is within its limit, the percentage used lies in `[0, 100]`. */
  lemma {:induction false} UsageWithinLimits(policies: seq<Policy>)
    requires forall i :: 0 <= i < |policies| ==> 0 <= policies[i].spent <= policies[i].limit
    requires TotalLimit(policies) > 0
    ensures Summarize(policies).limit.usagePercentage.Finite?
    ensures 0.0 <= Summarize(policies).limit.usagePercentage.value <= 100.0
  {
    SpentWithinLimit(policies);
    var stats := Aggregate(policies);
    assert Summarize(policies).limit.usagePercentage
        == Finite(stats.limit.used as real / stats.limit.total as real * 100.0);
    PercentOfWhole(stats.limit.used as real, stats.limit.total as real);
  }

  lemma {:induction false} SpentWithinLimit(policies: seq<Policy>)
    requires forall i :: 0 <= i < |policies| ==> 0 <= policies[i].spent <= policies[i].limit
    ensures 0 <= TotalSpent(policies) <= TotalLimit(policies)
  {
    if policies != [] {
      SpentWithinLimit(policies[1..]);
    }
  }
}
