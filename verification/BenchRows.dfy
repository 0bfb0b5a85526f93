/** What the numbers of a leaderboard row mean, read off the results' own fields: which
    results each rate counts, what each average adds up, and where a median lies. */
module BenchRows {
  import opened Prelude
  import opened BenchConfig
  import opened BenchReport
  import opened Counting
  import opened Sorting

  // ------------------------------------------------------ counting and adding

  ghost function WithVerdict(results: seq<TaskResult>): nat -> bool {
    (i: nat) => i < |results| && results[i].measured.grade.graded != Some(false)
  }

  ghost function WithPass(results: seq<TaskResult>): nat -> bool {
    (i: nat) => i < |results| && results[i].measured.grade.graded != Some(false) && results[i].measured.grade.passed
  }

  ghost function WithTimeout(results: seq<TaskResult>): nat -> bool {
    (i: nat) => i < |results| && results[i].measured.run.status == Timeout
  }

  lemma VerdictsAreCounted(results: seq<TaskResult>)
    ensures |Filter(results, IsGraded)| == HowMany(|results|, WithVerdict(results))
    ensures |Filter(results, IsPassed)| == HowMany(|results|, WithPass(results))
    ensures |Filter(results, IsTimeout)| == HowMany(|results|, WithTimeout(results))
  {
    FilterCounts(results, IsGraded);
    FilterCounts(results, IsPassed);
    FilterCounts(results, IsTimeout);
    HowManyAgrees(|results|, At(results, IsGraded), WithVerdict(results));
    HowManyAgrees(|results|, At(results, IsPassed), WithPass(results));
    HowManyAgrees(|results|, At(results, IsTimeout), WithTimeout(results));
  }

  /** A column of the results: what a field reads at each position. */
  ghost function Column(results: seq<TaskResult>, field: TaskResult -> real): nat -> real {
    (i: nat) => if i < |results| then field(results[i]) else 0.0
  }

  lemma {:induction false} ColumnTotal(results: seq<TaskResult>, pick: TaskResult -> real, field: TaskResult -> real)
    requires forall r :: pick(r) == field(r)
    ensures Sum(results, pick) == SumTo(|results|, Column(results, field))
  {
    if results == [] {
    } else {
      var init := results[..|results| - 1];
      ColumnTotal(init, pick, field);
      SumToAgrees(|init|, Column(init, field), Column(results, field));
    }
  }

  /** `rate` is the share that `part` is of `whole`, and `none` when there is no whole. */
  ghost predicate IsShare(rate: real, part: real, whole: real, none: real) {
    if whole == 0.0 then rate == none else rate * whole == part
  }

  lemma ShareOf(rate: real, part: real, whole: real, none: real)
    requires rate == if whole == 0.0 then none else part / whole
    ensures IsShare(rate, part, whole, none)
  {
  }

  /** The pass rate is over the results that have a verdict, and only those: an exported
      but ungraded result counts on neither side. */
  lemma PassRateCounts(cell: ModelCell, results: seq<TaskResult>)
    ensures var row, n := AggregateCell(cell, results), |results|;
      && row.cell == cell && row.taskCount == n && row.gradedCount == HowMany(n, WithVerdict(results))
      && IsShare(row.passRate, HowMany(n, WithPass(results)) as real, HowMany(n, WithVerdict(results)) as real, 0.0)
  {
    var graded, passed := HowMany(|results|, WithVerdict(results)), HowMany(|results|, WithPass(results));
    VerdictsAreCounted(results);
    if results == [] {
      assert Filter(results, IsGraded) == [];
    } else {
      RatesOf(cell, results);
    }
    ShareOf(AggregateCell(cell, results).passRate, passed as real, graded as real, 0.0);
  }

  lemma TimeoutRateCounts(cell: ModelCell, results: seq<TaskResult>)
    ensures var rate, n := AggregateCell(cell, results).timeoutRate, |results|;
      IsShare(rate, HowMany(n, WithTimeout(results)) as real, n as real, 0.0)
  {
    VerdictsAreCounted(results);
    if results != [] { RatesOf(cell, results); }
    ShareOf(AggregateCell(cell, results).timeoutRate, HowMany(|results|, WithTimeout(results)) as real, |results| as real, 0.0);
  }

  /** The share of edits that applied: one when none was attempted. */
  lemma ApplyRateCounts(cell: ModelCell, results: seq<TaskResult>)
    ensures var rate, n := AggregateCell(cell, results).editApplyRate, |results|;
      var calls := SumTo(n, Column(results, (r: TaskResult) => r.measured.tools.editCalls as real));
      var errors := SumTo(n, Column(results, (r: TaskResult) => r.measured.tools.editErrors as real));
      IsShare(rate, calls - errors, calls, 1.0)
  {
    var calls, errors := Sum(results, EditCalls), Sum(results, EditErrors);
    ColumnTotal(results, EditCalls, (r: TaskResult) => r.measured.tools.editCalls as real);
    ColumnTotal(results, EditErrors, (r: TaskResult) => r.measured.tools.editErrors as real);
    if results != [] { RatesOf(cell, results); }
    ShareOf(AggregateCell(cell, results).editApplyRate, calls - errors, calls, 1.0);
  }

  /** The averages times the number of results, and the retries, are the totals of their
      columns. */
  lemma AveragesAddUp(cell: ModelCell, results: seq<TaskResult>)
    ensures var row, n := AggregateCell(cell, results), |results|;
      && IsShare(row.avgCostUsd, SumTo(n, Column(results, (r: TaskResult) => r.measured.run.costUsd)), n as real, 0.0)
      && IsShare(row.avgTokensIn, SumTo(n, Column(results, (r: TaskResult) => r.measured.run.tokensIn)), n as real, 0.0)
      && IsShare(row.avgTokensOut, SumTo(n, Column(results, (r: TaskResult) => r.measured.run.tokensOut)), n as real, 0.0)
      && row.totalRateLimitRetries == SumTo(n, Column(results, (r: TaskResult) => r.measured.tools.rateLimitRetries as real))
  {
    var row, n := AggregateCell(cell, results), |results| as real;
    ColumnTotal(results, CostUsd, (r: TaskResult) => r.measured.run.costUsd);
    ColumnTotal(results, TokensIn, (r: TaskResult) => r.measured.run.tokensIn);
    ColumnTotal(results, TokensOut, (r: TaskResult) => r.measured.run.tokensOut);
    ColumnTotal(results, Retries, (r: TaskResult) => r.measured.tools.rateLimitRetries as real);
    ShareOf(row.avgCostUsd, Sum(results, CostUsd), n, 0.0);
    ShareOf(row.avgTokensIn, Sum(results, TokensIn), n, 0.0);
    ShareOf(row.avgTokensOut, Sum(results, TokensOut), n, 0.0);
  }

  // ---------------------------------------------------------------- medians

  ghost function LessThan(values: seq<real>, x: real): nat -> bool { (i: nat) => i < |values| && values[i] < x }
  ghost function MoreThan(values: seq<real>, x: real): nat -> bool { (i: nat) => i < |values| && values[i] > x }

  ghost function Below(values: seq<real>, x: real): nat { HowMany(|values|, LessThan(values, x)) }
  ghost function Above(values: seq<real>, x: real): nat { HowMany(|values|, MoreThan(values, x)) }

  /** `x` stands at place `k` when the values are lined up in ascending order. */
  ghost predicate IsRank(values: seq<real>, k: nat, x: real) {
    x in values && Below(values, x) <= k < |values| - Above(values, x)
  }

  lemma {:induction false} SortedPairs(s: seq<real>, i: nat, j: nat)
    requires SortedBy(s, AtMost) && i <= j < |s|
    ensures s[i] <= s[j]
  {
    if i == j {
    } else if j == |s| - 1 {
      SortedPairs(s[..|s| - 1], i, j - 1);
    } else {
      SortedPairs(s[..|s| - 1], i, j);
    }
  }

  lemma CountsFilter(s: seq<real>, x: real, less: real -> bool, more: real -> bool)
    requires forall v :: less(v) == (v < x) && more(v) == (v > x)
    ensures Below(s, x) == |Filter(s, less)| && Above(s, x) == |Filter(s, more)|
  {
    FilterCounts(s, less);
    FilterCounts(s, more);
    HowManyAgrees(|s|, At(s, less), LessThan(s, x));
    HowManyAgrees(|s|, At(s, more), MoreThan(s, x));
  }

  lemma CountsPermute(a: seq<real>, b: seq<real>, x: real)
    requires multiset(a) == multiset(b)
    ensures Below(a, x) == Below(b, x) && Above(a, x) == Above(b, x)
  {
    var less, more := (v: real) => v < x, (v: real) => v > x;
    FilterPermutes(a, b, less);
    FilterPermutes(a, b, more);
    CountsFilter(a, x, less, more);
    CountsFilter(b, x, less, more);
  }

  /** In a sorted list, what comes before place `k` is as many as are smaller at most. */
  lemma SortedPlaces(s: seq<real>, k: nat)
    requires SortedBy(s, AtMost) && k < |s|
    ensures IsRank(s, k, s[k])
  {
    forall i: nat | i < |s| ensures (i <= k ==> s[i] <= s[k]) && (i >= k ==> s[i] >= s[k]) {
      if i <= k { SortedPairs(s, i, k); } else { SortedPairs(s, k, i); }
    }
    HowManyWithin(|s|, LessThan(s, s[k]), 0, k);
    HowManyWithin(|s|, MoreThan(s, s[k]), k + 1, |s|);
  }

  /** What stands at place `k` of the sorted values has rank `k` among the values. */
  lemma SortedHasRank(values: seq<real>, k: nat)
    requires k < |values|
    ensures |StableSort(values, AtMost)| == |values|
    ensures IsRank(values, k, StableSort(values, AtMost)[k])
  {
    var s := StableSort(values, AtMost);
    SortPermutes(values, AtMost);
    AtMostOrders();
    SortSorts(values, AtMost);
    SameElements(s, values);
    SortedPlaces(s, k);
    CountsPermute(s, values, s[k]);
  }

  /** A median: the value of middle rank when there is one, else half way between the two
      middle ones, and zero of nothing. */
  ghost predicate IsMedian(values: seq<real>, m: real) {
    var n := |values|;
    if n == 0 then m == 0.0
    else if n % 2 == 1 then IsRank(values, n / 2, m)
    else exists a, b :: MiddleTwo(values, a, b) && 2.0 * m == a + b
  }

  ghost predicate MiddleTwo(values: seq<real>, a: real, b: real)
    requires values != [] && |values| % 2 == 0
  {
    IsRank(values, |values| / 2 - 1, a) && IsRank(values, |values| / 2, b)
  }

  lemma MedianIsMedian(values: seq<real>)
    ensures IsMedian(values, Median(values))
  {
    var n, s := |values|, StableSort(values, AtMost);
    if n > 0 {
      SortedHasRank(values, n / 2);
      if n % 2 == 0 {
        SortedHasRank(values, n / 2 - 1);
        assert MiddleTwo(values, s[n / 2 - 1], s[n / 2]);
      }
    }
  }

  lemma RanksAscend(values: seq<real>, j: nat, a: real, k: nat, b: real)
    requires j <= k && IsRank(values, j, a) && IsRank(values, k, b)
    ensures a <= b
  {
    if b < a { HowManyCover(|values|, LessThan(values, a), MoreThan(values, b)); }
  }

  /** At most half of the values lie strictly on either side of a median. */
  lemma MedianHalves(values: seq<real>, m: real)
    requires IsMedian(values, m) && values != []
    ensures 2 * Below(values, m) <= |values| && 2 * Above(values, m) <= |values|
  {
    var n := |values|;
    if n % 2 == 0 {
      var a, b :| MiddleTwo(values, a, b) && 2.0 * m == a + b;
      RanksAscend(values, n / 2 - 1, a, n / 2, b);
      HowManyGrows(n, LessThan(values, m), LessThan(values, b));
      HowManyGrows(n, MoreThan(values, m), MoreThan(values, a));
    }
  }

  /** The row's two medians are those of the iterations and of the elapsed times. */
  lemma MediansSplit(cell: ModelCell, results: seq<TaskResult>)
    ensures var row, n := AggregateCell(cell, results), |results|;
      && IsMedian(seq(n, i requires 0 <= i < n => results[i].measured.run.iterations), row.p50Iterations)
      && IsMedian(seq(n, i requires 0 <= i < n => results[i].measured.run.elapsedMs), row.p50ElapsedMs)
  {
    var n := |results|;
    assert Map(results, Iterations) == seq(n, i requires 0 <= i < n => results[i].measured.run.iterations);
    assert Map(results, ElapsedMs) == seq(n, i requires 0 <= i < n => results[i].measured.run.elapsedMs);
    MedianIsMedian(Map(results, Iterations));
    MedianIsMedian(Map(results, ElapsedMs));
  }
}
