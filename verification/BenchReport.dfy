/** packages/bench/src/orchestrate.ts and aggregate.ts: every task is run on every
    cell through the worker pool, and the results are folded into one leaderboard row
    per cell. */
module BenchReport {
  import opened Prelude
  import opened BenchConfig
  import opened Sorting
  import opened WorkerPool

  datatype RunStatus = Completed | Failed | Aborted | MaxIterations | Timeout | Crashed

  datatype RawRun = RawRun(status: RunStatus, iterations: real, tokensIn: real, tokensOut: real, costUsd: real, elapsedMs: real)

  datatype Grade = Grade(passed: bool, graded: Option<bool>)

  /** What running, grading and reading the log of one unit yields. */
  datatype Measured = Measured(run: RawRun, grade: Grade, tools: ToolMetrics)

  datatype Unit = Unit(taskId: string, cell: ModelCell)

  datatype TaskResult = TaskResult(taskId: string, cell: ModelCell, measured: Measured)

  datatype CellResult = CellResult(
    cell: ModelCell,
    taskCount: nat,
    gradedCount: nat,
    passRate: real,
    editApplyRate: real,
    avgCostUsd: real,
    avgTokensIn: real,
    avgTokensOut: real,
    p50Iterations: real,
    p50ElapsedMs: real,
    timeoutRate: real,
    totalRateLimitRetries: real)

  // ------------------------------------------------------------ aggregation

  function Sum<T>(items: seq<T>, pick: T -> real): real {
    if items == [] then 0.0 else Sum(items[..|items| - 1], pick) + pick(items[|items| - 1])
  }

  method SumLoop<T>(items: seq<T>, pick: T -> real) returns (total: real)
    ensures total == Sum(items, pick)
  {
    total := 0.0;
    for i := 0 to |items|
      invariant total == Sum(items[..i], pick)
    {
      assert items[..i + 1][..i] == items[..i];
      total := total + pick(items[i]);
    }
    assert items[..|items|] == items;
  }

  function Map<T, U>(items: seq<T>, f: T -> U): (r: seq<U>)
    ensures |r| == |items| && forall i :: 0 <= i < |r| ==> r[i] == f(items[i])
  {
    seq(|items|, i requires 0 <= i < |items| => f(items[i]))
  }

  predicate AtMost(a: real, b: real) { a <= b }

  function Median(values: seq<real>): real {
    if values == [] then 0.0
    else
      var sorted := StableSort(values, AtMost);
      SortPermutes(values, AtMost);
      var mid := |sorted| / 2;
      if |sorted| % 2 == 0 then (sorted[mid - 1] + sorted[mid]) / 2.0 else sorted[mid]
  }

  predicate IsGraded(r: TaskResult) { r.measured.grade.graded != Some(false) }
  predicate IsPassed(r: TaskResult) { IsGraded(r) && r.measured.grade.passed }
  predicate IsTimeout(r: TaskResult) { r.measured.run.status == Timeout }

  function EditCalls(r: TaskResult): real { r.measured.tools.editCalls as real }
  function EditErrors(r: TaskResult): real { r.measured.tools.editErrors as real }
  function CostUsd(r: TaskResult): real { r.measured.run.costUsd }
  function TokensIn(r: TaskResult): real { r.measured.run.tokensIn }
  function TokensOut(r: TaskResult): real { r.measured.run.tokensOut }
  function Iterations(r: TaskResult): real { r.measured.run.iterations }
  function ElapsedMs(r: TaskResult): real { r.measured.run.elapsedMs }
  function Retries(r: TaskResult): real { r.measured.tools.rateLimitRetries as real }

  function AggregateCell(cell: ModelCell, results: seq<TaskResult>): CellResult {
    if results == [] then CellResult(cell, 0, 0, 0.0, 1.0, 0.0, 0.0, 0.0, 0.0, 0.0, 0.0, 0.0)
    else
      var n := |results| as real;
      var graded, passed, timeouts :=
        |Filter(results, IsGraded)|, |Filter(results, IsPassed)|, |Filter(results, IsTimeout)|;
      var calls, errors := Sum(results, EditCalls), Sum(results, EditErrors);
      CellResult(cell, |results|, graded,
                 if graded == 0 then 0.0 else passed as real / graded as real,
                 if calls == 0.0 then 1.0 else (calls - errors) / calls,
                 Sum(results, CostUsd) / n,
                 Sum(results, TokensIn) / n,
                 Sum(results, TokensOut) / n,
                 Median(Map(results, Iterations)),
                 Median(Map(results, ElapsedMs)),
                 timeouts as real / n,
                 Sum(results, Retries))
  }

  function OfCell(cell: ModelCell): TaskResult -> bool {
    (r: TaskResult) => r.cell.tag == cell.tag
  }

  function AggregateAll(cells: seq<ModelCell>, results: seq<TaskResult>): (rows: seq<CellResult>)
    ensures |rows| == |cells|
    ensures forall k :: 0 <= k < |rows| ==> rows[k] == AggregateCell(cells[k], Filter(results, OfCell(cells[k])))
  {
    seq(|cells|, k requires 0 <= k < |cells| => AggregateCell(cells[k], Filter(results, OfCell(cells[k]))))
  }

  // ------------------------------------------------------------ orchestration

  function RowOfUnits(task: string, cells: seq<ModelCell>): seq<Unit> {
    Map(cells, (cell: ModelCell) => Unit(task, cell))
  }

  /** Every (task, cell) pair, tasks outermost. */
  function Units(tasks: seq<string>, cells: seq<ModelCell>): seq<Unit> {
    if tasks == [] then [] else Units(tasks[..|tasks| - 1], cells) + RowOfUnits(tasks[|tasks| - 1], cells)
  }

  method BuildUnits(tasks: seq<string>, cells: seq<ModelCell>) returns (units: seq<Unit>)
    ensures units == Units(tasks, cells)
  {
    units := [];
    for i := 0 to |tasks|
      invariant units == Units(tasks[..i], cells)
    {
      assert tasks[..i + 1][..i] == tasks[..i];
      ghost var before := units;
      for k := 0 to |cells|
        invariant units == before + RowOfUnits(tasks[i], cells[..k])
      {
        assert RowOfUnits(tasks[i], cells[..k + 1]) == RowOfUnits(tasks[i], cells[..k]) + [Unit(tasks[i], cells[k])];
        units := units + [Unit(tasks[i], cells[k])];
      }
      assert cells[..|cells|] == cells;
    }
    assert tasks[..|tasks|] == tasks;
  }

  /** What the pool runs on a unit: reading its log may throw, and the call rejects. */
  function ResultOf(attempt: Unit -> Option<Measured>): (Unit, nat) -> Option<TaskResult> {
    (u: Unit, i: nat) => match attempt(u) case None => None case Some(m) => Some(TaskResult(u.taskId, u.cell, m))
  }

  function Results(units: seq<Unit>, measure: Unit -> Measured): (r: seq<TaskResult>)
    ensures |r| == |units| && forall i :: 0 <= i < |r| ==> r[i] == TaskResult(units[i].taskId, units[i].cell, measure(units[i]))
  {
    Map(units, (u: Unit) => TaskResult(u.taskId, u.cell, measure(u)))
  }

  /** Every unit's attempt measures what `measure` says. */
  ghost predicate Measures(units: seq<Unit>, attempt: Unit -> Option<Measured>, measure: Unit -> Measured) {
    forall i :: 0 <= i < |units| ==> attempt(units[i]) == Some(measure(units[i]))
  }

  datatype Outcome = NoTasks | CallRejected | Report(rows: seq<CellResult>)

  /** The report's rows, unless the suite has no tasks or some unit's call rejects. */
  method RunBenchmark(tasks: seq<string>, cells: seq<ModelCell>, concurrency: int, attempt: Unit -> Option<Measured>)
    returns (outcome: Outcome)
    ensures outcome.NoTasks? <==> tasks == []
    ensures outcome.CallRejected? <==> exists u :: u in Units(tasks, cells) && attempt(u) == None
    ensures outcome.Report? ==> forall measure :: Measures(Units(tasks, cells), attempt, measure) ==>
              outcome.rows == AggregateAll(cells, Results(Units(tasks, cells), measure))
  {
    if |tasks| == 0 { return NoTasks; }
    var units := BuildUnits(tasks, cells);
    var slots, rejected := MapWithConcurrency(units, concurrency, ResultOf(attempt));
    if rejected {
      var i :| 0 <= i < |units| && ResultOf(attempt)(units[i], i) == None;
      assert attempt(units[i]) == None;
      return CallRejected;
    }
    forall i | 0 <= i < |units| ensures slots[i].Some? && attempt(units[i]).Some? {
      assert ResultOf(attempt)(units[i], i) != None;
    }
    var results := SlotValues(slots[..]);
    forall measure | Measures(units, attempt, measure) ensures results == Results(units, measure) {
      assert forall i :: 0 <= i < |units| ==> slots[i] == Some(Results(units, measure)[i]);
    }
    return Report(AggregateAll(cells, results));
  }

  function SlotValues(slots: seq<Option<TaskResult>>): seq<TaskResult>
    requires forall i :: 0 <= i < |slots| ==> slots[i].Some?
  {
    seq(|slots|, i requires 0 <= i < |slots| => slots[i].value)
  }

  // ------------------------------------------------- schedule independence

  /** However the pool interleaved, a finished run rejects exactly when some unit's call
      does; otherwise its slots are the same, so the rows are a function of the per-pair
      measurements alone. */
  lemma ReportIsScheduleIndependent(units: seq<Unit>, concurrency: int, attempt: Unit -> Option<Measured>,
                                    limit: nat, schedule: seq<nat>, p: Pool<TaskResult>)
    requires limit == Limit(|units|, concurrency)
    requires ValidSchedule(units, ResultOf(attempt), Init<TaskResult>(|units|, limit), schedule)
    requires p == Run(units, ResultOf(attempt), Init<TaskResult>(|units|, limit), schedule)
    requires forall w :: !Runnable(p, w)
    ensures Rejects(p) <==> exists u :: u in units && attempt(u) == None
    ensures forall measure :: Measures(units, attempt, measure) ==>
              p.results == Map(Results(units, measure), (r: TaskResult) => Some(r))
  {
    var fn := ResultOf(attempt);
    PoolProgress(units, concurrency, fn, limit, schedule, p);
    assert forall i :: 0 <= i < |units| ==> (fn(units[i], i) == None <==> attempt(units[i]) == None);
    forall measure | Measures(units, attempt, measure)
      ensures p.results == Map(Results(units, measure), (r: TaskResult) => Some(r))
    {
      NoneRejected(units, fn, limit, p);
    }
  }

  lemma {:induction false} SumDrop<T>(s: seq<T>, i: nat, pick: T -> real)
    requires i < |s|
    ensures Sum(s, pick) == Sum(Drop(s, i), pick) + pick(s[i])
  {
    if i < |s| - 1 {
      SumDrop(s[..|s| - 1], i, pick);
      var d := Drop(s, i);
      assert d[..|d| - 1] == Drop(s[..|s| - 1], i);
    } else {
      assert Drop(s, i) == s[..i];
    }
  }

  lemma {:induction false} SumPermutes<T>(a: seq<T>, b: seq<T>, pick: T -> real)
    requires multiset(a) == multiset(b)
    ensures Sum(a, pick) == Sum(b, pick)
  {
    SameElements(a, b);
    if a == [] {
    } else {
      var i := Twin(a, b);
      SumPermutes(a[..|a| - 1], Drop(b, i), pick);
      SumDrop(b, i, pick);
    }
  }

  lemma {:induction false} MapPermutes<T>(a: seq<T>, b: seq<T>, f: T -> real)
    requires multiset(a) == multiset(b)
    ensures multiset(Map(a, f)) == multiset(Map(b, f))
  {
    SameElements(a, b);
    if a == [] {
    } else {
      var i := Twin(a, b);
      MapPermutes(a[..|a| - 1], Drop(b, i), f);
      assert Map(a, f) == Map(a[..|a| - 1], f) + [f(a[|a| - 1])];
      assert Map(Drop(b, i), f) == Drop(Map(b, f), i);
      DropMultiset(Map(b, f), i);
    }
  }

  lemma MedianPermutes(a: seq<real>, b: seq<real>)
    requires multiset(a) == multiset(b)
    ensures Median(a) == Median(b)
  {
    SameElements(a, b);
    SortPermutes(a, AtMost);
    SortPermutes(b, AtMost);
    SortedSame(a, b);
  }

  lemma AtMostOrders()
    ensures TotalPreorder(AtMost)
    ensures forall x, y :: AtMost(x, y) && AtMost(y, x) ==> x == y
  {
  }

  lemma {:induction false} SortedSame(a: seq<real>, b: seq<real>)
    requires multiset(a) == multiset(b)
    ensures StableSort(a, AtMost) == StableSort(b, AtMost)
  {
    AtMostOrders();
    SortPermutes(a, AtMost);
    SortPermutes(b, AtMost);
    SortSorts(a, AtMost);
    SortSorts(b, AtMost);
    SortedIsUnique(StableSort(a, AtMost), StableSort(b, AtMost), AtMost);
  }

  /** A row does not depend on the order its results are listed in. */
  lemma RowIgnoresOrder(cell: ModelCell, a: seq<TaskResult>, b: seq<TaskResult>)
    requires multiset(a) == multiset(b)
    ensures AggregateCell(cell, a) == AggregateCell(cell, b)
  {
    SameElements(a, b);
    FilterPermutes(a, b, IsGraded);
    FilterPermutes(a, b, IsPassed);
    FilterPermutes(a, b, IsTimeout);
    SumPermutes(a, b, EditCalls);
    SumPermutes(a, b, EditErrors);
    SumPermutes(a, b, CostUsd);
    SumPermutes(a, b, TokensIn);
    SumPermutes(a, b, TokensOut);
    SumPermutes(a, b, Retries);
    MediansPermute(a, b);
  }

  lemma MediansPermute(a: seq<TaskResult>, b: seq<TaskResult>)
    requires multiset(a) == multiset(b)
    ensures Median(Map(a, Iterations)) == Median(Map(b, Iterations))
    ensures Median(Map(a, ElapsedMs)) == Median(Map(b, ElapsedMs))
  {
    MapPermutes(a, b, Iterations);
    MapPermutes(a, b, ElapsedMs);
    MedianPermutes(Map(a, Iterations), Map(b, Iterations));
    MedianPermutes(Map(a, ElapsedMs), Map(b, ElapsedMs));
  }

  // ---------------------------------------------------------------- rates

  lemma {:induction false} FilterShrinks<T>(s: seq<T>, p: T -> bool, q: T -> bool)
    requires forall x :: x in s && p(x) ==> q(x)
    ensures |Filter(s, p)| <= |Filter(s, q)| <= |s|
  {
    if s == [] {
    } else {
      assert s == s[..|s| - 1] + [s[|s| - 1]];
      FilterShrinks(s[..|s| - 1], p, q);
    }
  }

  lemma {:induction false} SumOrdered<T>(s: seq<T>, lo: T -> real, hi: T -> real)
    requires forall x :: x in s ==> 0.0 <= lo(x) <= hi(x)
    ensures 0.0 <= Sum(s, lo) <= Sum(s, hi)
  {
    if s == [] {
    } else {
      assert s == s[..|s| - 1] + [s[|s| - 1]];
      SumOrdered(s[..|s| - 1], lo, hi);
    }
  }

  lemma QuotientInUnit(a: real, b: real)
    requires 0.0 <= a <= b && 0.0 < b
    ensures 0.0 <= a / b <= 1.0
  {
    assert a / b * b == a;
  }

  lemma ApplyRateInUnit(results: seq<TaskResult>)
    requires forall r :: r in results ==> r.measured.tools.editErrors <= r.measured.tools.editCalls
    ensures var calls, errors := Sum(results, EditCalls), Sum(results, EditErrors);
      calls == 0.0 || 0.0 <= (calls - errors) / calls <= 1.0
  {
    SumOrdered(results, EditErrors, EditCalls);
    var calls, errors := Sum(results, EditCalls), Sum(results, EditErrors);
    if calls != 0.0 { QuotientInUnit(calls - errors, calls); }
  }

  lemma SharesInUnit(results: seq<TaskResult>)
    requires results != []
    ensures var graded, passed, timeouts :=
        |Filter(results, IsGraded)|, |Filter(results, IsPassed)|, |Filter(results, IsTimeout)|;
      && (graded > 0 ==> 0.0 <= passed as real / graded as real <= 1.0)
      && 0.0 <= timeouts as real / |results| as real <= 1.0
  {
    FilterShrinks(results, IsPassed, IsGraded);
    FilterShrinks(results, IsTimeout, IsTimeout);
    var graded, passed, timeouts := |Filter(results, IsGraded)|, |Filter(results, IsPassed)|, |Filter(results, IsTimeout)|;
    if graded > 0 { QuotientInUnit(passed as real, graded as real); }
    QuotientInUnit(timeouts as real, |results| as real);
  }

  lemma RatesOf(cell: ModelCell, results: seq<TaskResult>)
    requires results != []
    ensures var row, graded := AggregateCell(cell, results), |Filter(results, IsGraded)|;
      var calls, errors := Sum(results, EditCalls), Sum(results, EditErrors);
      && row.passRate == (if graded == 0 then 0.0 else |Filter(results, IsPassed)| as real / graded as real)
      && row.editApplyRate == (if calls == 0.0 then 1.0 else (calls - errors) / calls)
      && row.timeoutRate == |Filter(results, IsTimeout)| as real / |results| as real
  {
  }

  /** Every rate of every row is a fraction, given metrics the log counter can
      produce. */
  lemma RatesAreFractions(cell: ModelCell, results: seq<TaskResult>)
    requires forall r :: r in results ==> r.measured.tools.editErrors <= r.measured.tools.editCalls
    ensures var row := AggregateCell(cell, results);
      && 0.0 <= row.passRate <= 1.0 && 0.0 <= row.timeoutRate <= 1.0 && 0.0 <= row.editApplyRate <= 1.0
  {
    if results != [] {
      RatesOf(cell, results);
      SharesInUnit(results);
      ApplyRateInUnit(results);
    }
  }

  // ---------------------------------------------------- one row for each pair

  /** How many cells carry a label. */
  function LabelCount(cells: seq<ModelCell>, tag: string): nat {
    if cells == [] then 0
    else LabelCount(cells[..|cells| - 1], tag) + if cells[|cells| - 1].tag == tag then 1 else 0
  }

  lemma {:induction false} RowFilter(task: string, cells: seq<ModelCell>, cell: ModelCell, measure: Unit -> Measured)
    ensures |Filter(Results(RowOfUnits(task, cells), measure), OfCell(cell))| == LabelCount(cells, cell.tag)
  {
    var rs := Results(RowOfUnits(task, cells), measure);
    if cells == [] {
    } else {
      RowFilter(task, cells[..|cells| - 1], cell, measure);
      assert rs[..|rs| - 1] == Results(RowOfUnits(task, cells[..|cells| - 1]), measure);
    }
  }

  lemma ResultsAppend(a: seq<Unit>, b: seq<Unit>, measure: Unit -> Measured)
    ensures Results(a + b, measure) == Results(a, measure) + Results(b, measure)
  {
  }

  lemma OneMore(n: nat, c: nat)
    ensures (n + 1) * c == n * c + c
  {
  }

  /** A row's task count is the number of tasks, once for every cell sharing its
      label. */
  lemma {:induction false} RowTaskCount(tasks: seq<string>, cells: seq<ModelCell>, cell: ModelCell, measure: Unit -> Measured)
    ensures |Filter(Results(Units(tasks, cells), measure), OfCell(cell))| == |tasks| * LabelCount(cells, cell.tag)
  {
    if tasks == [] {
    } else {
      var init, last := tasks[..|tasks| - 1], tasks[|tasks| - 1];
      RowTaskCount(init, cells, cell, measure);
      RowFilter(last, cells, cell, measure);
      ResultsAppend(Units(init, cells), RowOfUnits(last, cells), measure);
      FilterAppend(Results(Units(init, cells), measure), Results(RowOfUnits(last, cells), measure), OfCell(cell));
      OneMore(|init|, LabelCount(cells, cell.tag));
    }
  }

  function TaskCounts(rows: seq<CellResult>): nat {
    if rows == [] then 0 else TaskCounts(rows[..|rows| - 1]) + rows[|rows| - 1].taskCount
  }

  /** Sum over the first `k` cells of how many cells share their label. */
  function LabelCounts(cells: seq<ModelCell>, k: nat): nat
    requires k <= |cells|
  {
    if k == 0 then 0 else LabelCounts(cells, k - 1) + LabelCount(cells, cells[k - 1].tag)
  }

  lemma {:induction false} CountOfSelf(cells: seq<ModelCell>, k: nat)
    requires k < |cells|
    ensures LabelCount(cells, cells[k].tag) >= 1
    ensures LabelCount(cells, cells[k].tag) == 1 <==> forall j :: 0 <= j < |cells| && j != k ==> cells[j].tag != cells[k].tag
  {
    CountsTag(cells, cells[k].tag, k);
  }

  lemma {:induction false} CountsTag(cells: seq<ModelCell>, tag: string, k: nat)
    requires k < |cells| && cells[k].tag == tag
    ensures LabelCount(cells, tag) >= 1
    ensures LabelCount(cells, tag) == 1 <==> forall j :: 0 <= j < |cells| && j != k ==> cells[j].tag != tag
  {
    var init := cells[..|cells| - 1];
    if k < |init| {
      CountsTag(init, tag, k);
    } else {
      CountZero(init, tag);
    }
  }

  lemma {:induction false} CountZero(cells: seq<ModelCell>, tag: string)
    ensures LabelCount(cells, tag) == 0 <==> forall j :: 0 <= j < |cells| ==> cells[j].tag != tag
  {
    if cells == [] {
    } else {
      CountZero(cells[..|cells| - 1], tag);
    }
  }

  lemma {:induction false} LabelCountsExact(cells: seq<ModelCell>, k: nat)
    requires k <= |cells|
    ensures LabelCounts(cells, k) >= k
    ensures LabelCounts(cells, k) == k <==> forall i :: 0 <= i < k ==> LabelCount(cells, cells[i].tag) == 1
  {
    if k == 0 {
    } else {
      LabelCountsExact(cells, k - 1);
      CountOfSelf(cells, k - 1);
    }
  }

  lemma RowCountsResults(cell: ModelCell, results: seq<TaskResult>)
    ensures AggregateCell(cell, results).taskCount == |results|
  {
  }

  lemma {:induction false} TaskCountsAre(rows: seq<CellResult>, cells: seq<ModelCell>, n: nat, k: nat)
    requires k <= |cells| == |rows|
    requires forall j :: 0 <= j < |rows| ==> rows[j].taskCount == n * LabelCount(cells, cells[j].tag)
    ensures TaskCounts(rows[..k]) == n * LabelCounts(cells, k)
  {
    if k == 0 {
    } else {
      TaskCountsAre(rows, cells, n, k - 1);
      LastCounts(rows, k);
      Spread(n, LabelCounts(cells, k - 1), LabelCount(cells, cells[k - 1].tag));
    }
  }

  lemma RowsCount(tasks: seq<string>, cells: seq<ModelCell>, measure: Unit -> Measured, j: nat)
    requires j < |cells|
    ensures AggregateAll(cells, Results(Units(tasks, cells), measure))[j].taskCount
         == |tasks| * LabelCount(cells, cells[j].tag)
  {
    RowTaskCount(tasks, cells, cells[j], measure);
    RowCountsResults(cells[j], Filter(Results(Units(tasks, cells), measure), OfCell(cells[j])));
  }

  lemma LastCounts(rows: seq<CellResult>, k: nat)
    requires 0 < k <= |rows|
    ensures TaskCounts(rows[..k]) == TaskCounts(rows[..k - 1]) + rows[k - 1].taskCount
  {
    assert rows[..k][..k - 1] == rows[..k - 1];
  }

  /** Row task counts add up to tasks times cells exactly when the labels are unique,
      which is what the config parser guarantees. */
  lemma RowsPartitionThePairs(tasks: seq<string>, cells: seq<ModelCell>, measure: Unit -> Measured)
    requires tasks != []
    ensures TaskCounts(AggregateAll(cells, Results(Units(tasks, cells), measure))) == |tasks| * |cells|
       <==> Labelled(cells)
  {
    RowsCountLabels(tasks, cells, measure);
    LabelCountsExact(cells, |cells|);
    Cancel(|tasks|, LabelCounts(cells, |cells|), |cells|);
    LabelledMeansOne(cells);
  }

  lemma RowsCountLabels(tasks: seq<string>, cells: seq<ModelCell>, measure: Unit -> Measured)
    ensures TaskCounts(AggregateAll(cells, Results(Units(tasks, cells), measure))) == |tasks| * LabelCounts(cells, |cells|)
  {
    var rows := AggregateAll(cells, Results(Units(tasks, cells), measure));
    forall j | 0 <= j < |rows| ensures rows[j].taskCount == |tasks| * LabelCount(cells, cells[j].tag) {
      RowsCount(tasks, cells, measure, j);
    }
    TaskCountsAre(rows, cells, |tasks|, |cells|);
    assert rows[..|cells|] == rows;
  }

  lemma Spread(n: nat, a: nat, b: nat)
    ensures n * (a + b) == n * a + n * b
  {
  }

  lemma Cancel(n: nat, a: nat, b: nat)
    requires n > 0
    ensures n * a == n * b <==> a == b
  {
    if a < b { assert n * a < n * b; }
    if a > b { assert n * a > n * b; }
  }

  lemma LabelledMeansOne(cells: seq<ModelCell>)
    ensures Labelled(cells) <==> forall i :: 0 <= i < |cells| ==> LabelCount(cells, cells[i].tag) == 1
  {
    forall i | 0 <= i < |cells| ensures LabelCount(cells, cells[i].tag) == 1 <==>
      forall j :: 0 <= j < |cells| && j != i ==> cells[j].tag != cells[i].tag
    {
      CountOfSelf(cells, i);
    }
  }

  function OwnResults(tasks: seq<string>, cell: ModelCell, measure: Unit -> Measured): seq<TaskResult> {
    Map(tasks, (t: string) => TaskResult(t, cell, measure(Unit(t, cell))))
  }

  lemma OwnAppend(tasks: seq<string>, last: string, cell: ModelCell, measure: Unit -> Measured)
    ensures OwnResults(tasks + [last], cell, measure) ==
            OwnResults(tasks, cell, measure) + [TaskResult(last, cell, measure(Unit(last, cell)))]
  {
  }

  /** With unique labels a cell's row is made of that cell's own results, one per task
      in task order. */
  lemma {:induction false} RowIsItsCellsTasks(tasks: seq<string>, cells: seq<ModelCell>, k: nat, measure: Unit -> Measured)
    requires k < |cells| && Labelled(cells)
    ensures Filter(Results(Units(tasks, cells), measure), OfCell(cells[k]))
         == OwnResults(tasks, cells[k], measure)
  {
    if tasks == [] {
    } else {
      var init, last := tasks[..|tasks| - 1], tasks[|tasks| - 1];
      RowIsItsCellsTasks(init, cells, k, measure);
      assert tasks == init + [last];
      LabelledAlone(cells, k);
      OneMoreTask(init, last, cells, k, measure);
      OwnAppend(init, last, cells[k], measure);
    }
  }

  lemma LabelledAlone(cells: seq<ModelCell>, k: nat)
    requires k < |cells| && Labelled(cells)
    ensures AloneAt(cells, k)
  {
  }

  lemma WholeRow(task: string, cells: seq<ModelCell>, k: nat, measure: Unit -> Measured)
    requires k < |cells| && AloneAt(cells, k)
    ensures Filter(Results(RowOfUnits(task, cells), measure), OfCell(cells[k]))
         == [TaskResult(task, cells[k], measure(Unit(task, cells[k])))]
  {
    RowOfTask(task, cells, k, measure, |cells|);
    assert cells[..|cells|] == cells;
  }

  lemma OneMoreTask(init: seq<string>, last: string, cells: seq<ModelCell>, k: nat, measure: Unit -> Measured)
    requires k < |cells| && AloneAt(cells, k)
    ensures Filter(Results(Units(init + [last], cells), measure), OfCell(cells[k]))
         == Filter(Results(Units(init, cells), measure), OfCell(cells[k])) +
            [TaskResult(last, cells[k], measure(Unit(last, cells[k])))]
  {
    UnitsFilter(init, last, cells, cells[k], measure);
    WholeRow(last, cells, k, measure);
  }

  lemma UnitsFilter(init: seq<string>, last: string, cells: seq<ModelCell>, cell: ModelCell, measure: Unit -> Measured)
    ensures Filter(Results(Units(init + [last], cells), measure), OfCell(cell))
         == Filter(Results(Units(init, cells), measure), OfCell(cell)) +
            Filter(Results(RowOfUnits(last, cells), measure), OfCell(cell))
  {
    assert (init + [last])[..|init|] == init;
    ResultsAppend(Units(init, cells), RowOfUnits(last, cells), measure);
    FilterAppend(Results(Units(init, cells), measure), Results(RowOfUnits(last, cells), measure), OfCell(cell));
  }

  /** No other cell carries the cell's label. */
  predicate AloneAt(cells: seq<ModelCell>, k: nat)
    requires k < |cells|
  {
    forall j :: 0 <= j < |cells| && j != k ==> cells[j].tag != cells[k].tag
  }

  lemma OneMoreCell(task: string, cells: seq<ModelCell>, n: nat, measure: Unit -> Measured)
    requires 0 < n <= |cells|
    ensures Results(RowOfUnits(task, cells[..n]), measure) ==
            Results(RowOfUnits(task, cells[..n - 1]), measure) +
            [TaskResult(task, cells[n - 1], measure(Unit(task, cells[n - 1])))]
  {
  }

  lemma FilterLast(rs: seq<TaskResult>, r: TaskResult, p: TaskResult -> bool)
    ensures Filter(rs + [r], p) == Filter(rs, p) + if p(r) then [r] else []
  {
    assert (rs + [r])[..|rs|] == rs;
  }

  lemma {:induction false} RowOfTask(task: string, cells: seq<ModelCell>, k: nat, measure: Unit -> Measured, n: nat)
    requires k < |cells| && n <= |cells| && AloneAt(cells, k)
    ensures Filter(Results(RowOfUnits(task, cells[..n]), measure), OfCell(cells[k]))
         == if n <= k then [] else [TaskResult(task, cells[k], measure(Unit(task, cells[k])))]
  {
    var row, p := Results(RowOfUnits(task, cells[..n]), measure), OfCell(cells[k]);
    if n == 0 {
      assert row == [];
    } else {
      var init, r := Results(RowOfUnits(task, cells[..n - 1]), measure), TaskResult(task, cells[n - 1], measure(Unit(task, cells[n - 1])));
      RowOfTask(task, cells, k, measure, n - 1);
      OneMoreCell(task, cells, n, measure);
      FilterLast(init, r, p);
      assert row == init + [r];
      assert p(r) <==> n - 1 == k;
    }
  }

  // ------------------------------------------------------------- end to end

  /** One unit's attempt: preparing its work directory and running the agent there may
      each reject (None), and so does reading a log with a `null` line. */
  function Attempt(run: Unit -> Option<RawRun>, grade: Unit -> Grade, log: Unit -> seq<LogLine>): Unit -> Option<Measured> {
    (u: Unit) =>
      match run(u)
      case None => None
      case Some(raw) => if JsonNull in log(u) then None else Some(Measured(raw, grade(u), MetricsOf(log(u))))
  }

  const UNMEASURED: Measured := Measured(RawRun(Crashed, 0.0, 0.0, 0.0, 0.0, 0.0), Grade(false, None), ToolMetrics(0, 0, 0, 0))

  /** What an attempt measures, where it does. */
  function Got(attempt: Unit -> Option<Measured>): Unit -> Measured {
    (u: Unit) => match attempt(u) case Some(m) => m case None => UNMEASURED
  }

  lemma CountedErrors(run: Unit -> Option<RawRun>, grade: Unit -> Grade, log: Unit -> seq<LogLine>)
    ensures forall u :: var tools := Got(Attempt(run, grade, log))(u).tools; tools.editErrors <= tools.editCalls
  {
    var attempt := Attempt(run, grade, log);
    forall u ensures var tools := Got(attempt)(u).tools; tools.editErrors <= tools.editCalls {
      assert attempt(u) == None || attempt(u).value.tools == MetricsOf(log(u));
    }
  }

  predicate InUnit(rate: real) { 0.0 <= rate <= 1.0 }

  /** The row is the aggregate of the cell's own results, one per task, and its rates
      are fractions. */
  ghost predicate RowStands(row: CellResult, tasks: seq<string>, cell: ModelCell, measure: Unit -> Measured) {
    && row == AggregateCell(cell, OwnResults(tasks, cell, measure))
    && row.taskCount == |tasks|
    && InUnit(row.passRate) && InUnit(row.timeoutRate) && InUnit(row.editApplyRate)
  }

  /** One row per cell, and the rows partition the pairs. */
  ghost predicate LeaderboardStands(rows: seq<CellResult>, tasks: seq<string>, cells: seq<ModelCell>, measure: Unit -> Measured) {
    && |rows| == |cells| && TaskCounts(rows) == |tasks| * |cells|
    && forall k :: 0 <= k < |rows| ==> RowStands(rows[k], tasks, cells[k], measure)
  }

  lemma RowHolds(tasks: seq<string>, cells: seq<ModelCell>, measure: Unit -> Measured, k: nat)
    requires k < |cells| && Labelled(cells)
    requires forall u :: measure(u).tools.editErrors <= measure(u).tools.editCalls
    ensures RowStands(AggregateAll(cells, Results(Units(tasks, cells), measure))[k], tasks, cells[k], measure)
  {
    var own := OwnResults(tasks, cells[k], measure);
    RowIsItsCellsTasks(tasks, cells, k, measure);
    RowCountsResults(cells[k], own);
    RatesAreFractions(cells[k], own);
  }

  lemma LeaderboardHolds(tasks: seq<string>, cells: seq<ModelCell>, measure: Unit -> Measured)
    requires tasks != [] && Labelled(cells)
    requires forall u :: measure(u).tools.editErrors <= measure(u).tools.editCalls
    ensures LeaderboardStands(AggregateAll(cells, Results(Units(tasks, cells), measure)), tasks, cells, measure)
  {
    RowsPartitionThePairs(tasks, cells, measure);
    var rows := AggregateAll(cells, Results(Units(tasks, cells), measure));
    forall k | 0 <= k < |cells| ensures RowStands(rows[k], tasks, cells[k], measure) {
      RowHolds(tasks, cells, measure, k);
    }
  }

  lemma SlotsOfResults(slots: seq<Option<TaskResult>>, results: seq<TaskResult>)
    requires slots == Map(results, (r: TaskResult) => Some(r))
    ensures (forall i :: 0 <= i < |slots| ==> slots[i].Some?) && SlotValues(slots) == results
  {
    assert forall i :: 0 <= i < |slots| ==> slots[i] == Some(results[i]);
  }

  /** A unit's call rejects. */
  predicate Fails(run: Unit -> Option<RawRun>, log: Unit -> seq<LogLine>, u: Unit) {
    run(u) == None || JsonNull in log(u)
  }

  /** From the config to the leaderboard. Whatever the raw config, if it is accepted and
      the suite has tasks, then however the pool interleaves the units, once no worker can
      run: the benchmark has rejected exactly if some unit could not be prepared or run or
      its log holds a `null` line; and if none has, every slot is filled, each cell's row
      is the aggregate of that cell's own results, one per task, so the rows partition the
      pairs, and every rate is a fraction. */
  lemma BenchmarkEndToEnd(raw: RawConfig, config: Config, tasks: seq<string>, run: Unit -> Option<RawRun>,
                          grade: Unit -> Grade, log: Unit -> seq<LogLine>, schedule: seq<nat>, p: Pool<TaskResult>)
    requires Accepts(raw, config) && tasks != []
    requires var units, fn := Units(tasks, config.cells), ResultOf(Attempt(run, grade, log));
      var start := Init<TaskResult>(|units|, Limit(|units|, config.concurrency));
      ValidSchedule(units, fn, start, schedule) && p == Run(units, fn, start, schedule)
    requires forall w :: !Runnable(p, w)
    ensures Rejects(p) <==> exists u :: u in Units(tasks, config.cells) && Fails(run, log, u)
    ensures !Rejects(p) ==>
      && (forall i :: 0 <= i < |p.results| ==> p.results[i].Some?)
      && LeaderboardStands(AggregateAll(config.cells, SlotValues(p.results)), tasks, config.cells, Got(Attempt(run, grade, log)))
  {
    var units, attempt := Units(tasks, config.cells), Attempt(run, grade, log);
    ReportIsScheduleIndependent(units, config.concurrency, attempt, Limit(|units|, config.concurrency), schedule, p);
    assert forall u :: attempt(u) == None <==> Fails(run, log, u);
    if !Rejects(p) {
      AllMeasured(units, attempt);
      SlotsOfResults(p.results, Results(units, Got(attempt)));
      CountedErrors(run, grade, log);
      LeaderboardHolds(tasks, config.cells, Got(attempt));
    }
  }

  lemma AllMeasured(units: seq<Unit>, attempt: Unit -> Option<Measured>)
    requires !exists u :: u in units && attempt(u) == None
    ensures Measures(units, attempt, Got(attempt))
  {
    forall i | 0 <= i < |units| ensures attempt(units[i]) == Some(Got(attempt)(units[i])) {
      assert units[i] in units;
    }
  }
}
