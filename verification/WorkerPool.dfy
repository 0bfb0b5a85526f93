/** The worker pool of packages/bench/src/runner.ts: `limit` async workers share
    one counter, each repeatedly takes the next index, awaits `fn`, and stores the
    result in its own slot. A step is the stretch of code one worker runs between
    two awaits; a schedule says which worker runs next. A call whose `fn` is None
    rejects: its worker stops, the others run on, and the whole map rejects. */
module WorkerPool {
  import opened Prelude

  datatype Worker = Fresh | Awaiting(index: nat) | Rejected(index: nat) | Returned

  datatype Pool<R> = Pool(
    next: nat,
    workers: seq<Worker>,
    results: seq<Option<R>>,
    started: seq<nat>)

  function Limit(itemCount: nat, concurrency: int): (limit: nat)
    ensures 1 <= limit && (itemCount > 0 ==> limit <= itemCount)
    ensures 1 <= concurrency <= itemCount ==> limit == concurrency
    ensures concurrency <= 1 || itemCount <= 1 ==> limit == 1
    ensures 1 <= itemCount <= concurrency ==> limit == itemCount
  {
    Max(1, Min(concurrency, if itemCount == 0 then 1 else itemCount))
  }

  function Init<R>(itemCount: nat, limit: nat): Pool<R> {
    Pool(0, seq(limit, _ => Fresh), seq(itemCount, _ => None), [])
  }

  /** Worker `w` resumes: if the call it was awaiting rejected it stops there; otherwise
      it stores the value, then takes an index and either calls `fn` on it or returns. */
  function Step<T, R>(items: seq<T>, fn: (T, nat) -> Option<R>, p: Pool<R>, w: nat): Pool<R>
    requires w < |p.workers| && |p.results| == |items|
  {
    var worker := p.workers[w];
    var settled := worker.Awaiting? && worker.index < |items|;
    if settled && fn(items[worker.index], worker.index) == None then
      p.(workers := p.workers[w := Rejected(worker.index)])
    else
      var results := if settled then p.results[worker.index := fn(items[worker.index], worker.index)] else p.results;
      if p.next < |items|
      then Pool(p.next + 1, p.workers[w := Awaiting(p.next)], results, p.started + [p.next])
      else Pool(p.next + 1, p.workers[w := Returned], results, p.started)
  }

  predicate Finished(worker: Worker) { worker.Rejected? || worker.Returned? }

  predicate Runnable<R>(p: Pool<R>, w: nat) {
    w < |p.workers| && !Finished(p.workers[w])
  }

  /** Once no worker can run, `Promise.all` has rejected exactly if some worker has. */
  ghost predicate Rejects<R>(p: Pool<R>) {
    exists w :: 0 <= w < |p.workers| && p.workers[w].Rejected?
  }

  function Count(workers: seq<Worker>, p: Worker -> bool): nat {
    if workers == [] then 0
    else (if p(workers[0]) then 1 else 0) + Count(workers[1..], p)
  }

  predicate IsReturned(worker: Worker) { worker.Returned? }

  /** Calls of `fn` that have started and not settled yet. */
  function InFlight<R>(p: Pool<R>): set<nat> {
    set i: nat | i in p.started && i < |p.results| && p.results[i] == None && Rejected(i) !in p.workers
  }

  /** The calls among the first `k` that reject. */
  function Misses<T, R>(items: seq<T>, fn: (T, nat) -> Option<R>, k: nat): set<nat>
    requires k <= |items|
  {
    set i: nat | i < k && fn(items[i], i) == None
  }

  ghost predicate Inv<T, R>(items: seq<T>, fn: (T, nat) -> Option<R>, p: Pool<R>) {
    && |p.results| == |items|
    && Started(p, |items|)
    // the counter overshoots the items exactly once per returned worker
    && Count(p.workers, IsReturned) == p.next - Min(p.next, |items|)
    && HeldOnce(items, fn, p)
    && Stored(items, fn, p)
    && (forall i :: 0 <= i < |p.started| && p.results[i] == None ==> Owned(p.workers, i))
    // the worker that started the newest call had not stopped on an earlier one
    && (p.started != [] ==> |Misses(items, fn, |p.started| - 1)| < |p.workers|)
  }

  /** Every index below `next` has started, once, in increasing order. */
  ghost predicate Started<R>(p: Pool<R>, n: nat) {
    |p.started| == Min(p.next, n) && forall k :: 0 <= k < |p.started| ==> p.started[k] == k
  }

  predicate Holds(worker: Worker) { worker.Awaiting? || worker.Rejected? }

  /** Calls held by a worker have started, have stored nothing, and belong to one worker
      each; a worker has stopped on one only if it rejects. */
  ghost predicate HeldOnce<T, R>(items: seq<T>, fn: (T, nat) -> Option<R>, p: Pool<R>)
    requires |p.started| <= |p.results| == |items|
  {
    && (forall w :: 0 <= w < |p.workers| && Holds(p.workers[w]) ==>
          && p.workers[w].index < |p.started| && p.results[p.workers[w].index] == None
          && (p.workers[w].Rejected? ==> fn(items[p.workers[w].index], p.workers[w].index) == None))
    && DistinctlyHeld(p.workers)
  }

  ghost predicate DistinctlyHeld(workers: seq<Worker>) {
    forall v, w :: 0 <= v < w < |workers| && Holds(workers[v]) && Holds(workers[w]) ==>
      workers[v].index != workers[w].index
  }

  /** A filled slot holds its own item's value, and belongs to a started call. */
  ghost predicate Stored<T, R>(items: seq<T>, fn: (T, nat) -> Option<R>, p: Pool<R>)
    requires |p.results| == |items|
  {
    forall i :: 0 <= i < |items| && p.results[i] != None ==>
      i < |p.started| && p.results[i] == fn(items[i], i)
  }

  ghost predicate Owned(workers: seq<Worker>, i: nat) {
    exists w :: 0 <= w < |workers| && Holds(workers[w]) && workers[w].index == i
  }

  lemma {:induction false} CountUpdate(workers: seq<Worker>, w: nat, x: Worker, p: Worker -> bool)
    requires w < |workers| && !p(workers[w])
    ensures Count(workers[w := x], p) == Count(workers, p) + if p(x) then 1 else 0
  {
    if w == 0 {
      assert workers[w := x][1..] == workers[1..];
    } else {
      assert workers[w := x][1..] == workers[1..][w - 1 := x];
      CountUpdate(workers[1..], w - 1, x, p);
    }
  }

  lemma {:induction false} CountBound(workers: seq<Worker>, p: Worker -> bool)
    ensures Count(workers, p) <= |workers|
    ensures Count(workers, p) == |workers| <==> forall w :: 0 <= w < |workers| ==> p(workers[w])
  {
    if workers == [] {
    } else {
      CountBound(workers[1..], p);
      assert forall w :: 0 < w < |workers| ==> workers[w] == workers[1..][w - 1];
      if Count(workers, p) == |workers| {
        forall w | 0 <= w < |workers| ensures p(workers[w]) {
          if w > 0 { assert p(workers[1..][w - 1]); }
        }
      }
      if forall w :: 0 <= w < |workers| ==> p(workers[w]) {
        assert forall w :: 0 <= w < |workers[1..]| ==> workers[1..][w] == workers[w + 1] && p(workers[w + 1]);
      }
    }
  }

  lemma {:induction false} FreshCount(limit: nat, p: Worker -> bool)
    requires !p(Fresh)
    ensures Count(seq(limit, _ => Fresh), p) == 0
  {
    if limit == 0 {
    } else {
      assert seq(limit, _ => Fresh)[1..] == seq(limit - 1, _ => Fresh);
      FreshCount(limit - 1, p);
    }
  }

  lemma InitInv<T, R>(items: seq<T>, fn: (T, nat) -> Option<R>, limit: nat)
    ensures Inv(items, fn, Init<R>(|items|, limit))
  {
    FreshCount(limit, IsReturned);
  }

  lemma StepKeepsHeldOnce<T, R>(items: seq<T>, fn: (T, nat) -> Option<R>, p: Pool<R>, w: nat)
    requires Inv(items, fn, p) && Runnable(p, w)
    ensures var q := Step(items, fn, p, w); |q.started| <= |q.results| == |items| && HeldOnce(items, fn, q)
  {
  }

  lemma StepKeepsOwners<T, R>(items: seq<T>, fn: (T, nat) -> Option<R>, p: Pool<R>, w: nat, i: nat)
    requires Inv(items, fn, p) && Runnable(p, w)
    requires var q := Step(items, fn, p, w); i < |q.started| <= |q.results| && q.results[i] == None
    ensures Owned(Step(items, fn, p, w).workers, i)
  {
    var q := Step(items, fn, p, w);
    if i == p.next {
      assert Holds(q.workers[w]) && q.workers[w].index == i;
    } else {
      assert p.results[i] == None;
      assert Owned(p.workers, i);
      var v :| 0 <= v < |p.workers| && Holds(p.workers[v]) && p.workers[v].index == i;
      assert Holds(q.workers[v]) && q.workers[v].index == i;
    }
  }

  /** Distinct values held by the workers number at most as many as there are workers. */
  lemma {:induction false} HeldAtMost(workers: seq<Worker>, held: set<nat>)
    requires forall i :: i in held ==> Owned(workers, i)
    ensures |held| <= |workers|
  {
    if workers == [] {
      assert forall i :: i in held ==> !Owned(workers, i);
      assert held == {};
    } else {
      var init, last := workers[..|workers| - 1], workers[|workers| - 1];
      var rest := if Holds(last) then held - {last.index} else held;
      forall i | i in rest ensures Owned(init, i) {
        assert Owned(workers, i);
        var w :| 0 <= w < |workers| && Holds(workers[w]) && workers[w].index == i;
        assert w != |workers| - 1;
        assert Holds(init[w]) && init[w].index == i;
      }
      HeldAtMost(init, rest);
      assert held <= rest + if Holds(last) then {last.index} else {};
    }
  }

  /** And at least as many, when every worker holds one. */
  lemma {:induction false} HeldAtLeast(workers: seq<Worker>, held: set<nat>)
    requires DistinctlyHeld(workers)
    requires forall w :: 0 <= w < |workers| ==> Holds(workers[w]) && workers[w].index in held
    ensures |held| >= |workers|
  {
    if workers == [] {
    } else {
      var init, last := workers[..|workers| - 1], workers[|workers| - 1];
      assert Holds(last) && last.index in held;
      forall w | 0 <= w < |init| ensures Holds(init[w]) && init[w].index in held - {last.index} {
        assert init[w] == workers[w];
      }
      HeldAtLeast(init, held - {last.index});
    }
  }

  lemma HeldFewer(workers: seq<Worker>, held: set<nat>, w: nat)
    requires w < |workers| && forall i :: i in held ==> OwnedBut(workers, i, w)
    ensures |held| < |workers|
  {
    var others := workers[..w] + workers[w + 1..];
    forall i | i in held ensures Owned(others, i) {
      assert OwnedBut(workers, i, w);
      var v :| 0 <= v < |workers| && v != w && Holds(workers[v]) && workers[v].index == i;
      assert others[if v < w then v else v - 1] == workers[v];
    }
    HeldAtMost(others, held);
  }

  ghost predicate OwnedBut(workers: seq<Worker>, i: nat, w: nat) {
    exists v :: 0 <= v < |workers| && v != w && Holds(workers[v]) && workers[v].index == i
  }

  /** When a worker goes on, every rejecting call started so far is held by another. */
  lemma MissesElsewhere<T, R>(items: seq<T>, fn: (T, nat) -> Option<R>, p: Pool<R>, w: nat)
    requires Inv(items, fn, p) && Runnable(p, w)
    requires p.workers[w].Awaiting? ==> fn(items[p.workers[w].index], p.workers[w].index) != None
    ensures |Misses(items, fn, |p.started|)| < |p.workers|
  {
    var misses := Misses(items, fn, |p.started|);
    forall i | i in misses ensures OwnedBut(p.workers, i, w) {
      assert p.results[i] == None;
      assert Owned(p.workers, i);
      var v :| 0 <= v < |p.workers| && Holds(p.workers[v]) && p.workers[v].index == i;
      assert v != w;
    }
    HeldFewer(p.workers, misses, w);
  }

  lemma StepKeepsCounts<T, R>(items: seq<T>, fn: (T, nat) -> Option<R>, p: Pool<R>, w: nat)
    requires Inv(items, fn, p) && Runnable(p, w)
    ensures var q := Step(items, fn, p, w);
      && Started(q, |items|) && |q.results| == |items|
      && Count(q.workers, IsReturned) == q.next - Min(q.next, |items|)
  {
    CountUpdate(p.workers, w, Step(items, fn, p, w).workers[w], IsReturned);
  }

  lemma StepKeepsMisses<T, R>(items: seq<T>, fn: (T, nat) -> Option<R>, p: Pool<R>, w: nat)
    requires Inv(items, fn, p) && Runnable(p, w)
    ensures var q := Step(items, fn, p, w);
      |q.started| <= |items| && (q.started != [] ==> |Misses(items, fn, |q.started| - 1)| < |q.workers|)
  {
    if |Step(items, fn, p, w).started| > |p.started| { MissesElsewhere(items, fn, p, w); }
  }

  lemma StepInv<T, R>(items: seq<T>, fn: (T, nat) -> Option<R>, p: Pool<R>, w: nat)
    requires Inv(items, fn, p) && Runnable(p, w)
    ensures Inv(items, fn, Step(items, fn, p, w))
  {
    var q := Step(items, fn, p, w);
    StepKeepsCounts(items, fn, p, w);
    StepKeepsHeldOnce(items, fn, p, w);
    StepKeepsMisses(items, fn, p, w);
    forall i | 0 <= i < |q.started| && q.results[i] == None ensures Owned(q.workers, i) {
      StepKeepsOwners(items, fn, p, w, i);
    }
  }

  /** At most one call per worker is ever outstanding. */
  lemma InFlightBounded<T, R>(items: seq<T>, fn: (T, nat) -> Option<R>, p: Pool<R>)
    requires Inv(items, fn, p)
    ensures |InFlight(p)| <= |p.workers|
  {
    HeldAtMost(p.workers, InFlight(p));
  }

  /** `schedule` names, step by step, a worker that can still run. */
  ghost predicate ValidSchedule<T, R>(items: seq<T>, fn: (T, nat) -> Option<R>, p: Pool<R>, schedule: seq<nat>)
    requires |p.results| == |items|
    decreases |schedule|
  {
    schedule == [] ||
    (Runnable(p, schedule[0]) && ValidSchedule(items, fn, Step(items, fn, p, schedule[0]), schedule[1..]))
  }

  ghost function Run<T, R>(items: seq<T>, fn: (T, nat) -> Option<R>, p: Pool<R>, schedule: seq<nat>): (q: Pool<R>)
    requires |p.results| == |items| && ValidSchedule(items, fn, p, schedule)
    ensures |q.results| == |items|
    decreases |schedule|
  {
    if schedule == [] then p else Run(items, fn, Step(items, fn, p, schedule[0]), schedule[1..])
  }

  /** Every step starts a call or finishes a worker. */
  function Progress<R>(p: Pool<R>): nat { |p.started| + Count(p.workers, Finished) }

  lemma StepProgress<T, R>(items: seq<T>, fn: (T, nat) -> Option<R>, p: Pool<R>, w: nat)
    requires |p.results| == |items| && Runnable(p, w)
    ensures Progress(Step(items, fn, p, w)) == Progress(p) + 1
  {
    CountUpdate(p.workers, w, Step(items, fn, p, w).workers[w], Finished);
  }

  lemma {:induction false} RunInv<T, R>(items: seq<T>, fn: (T, nat) -> Option<R>, p: Pool<R>, schedule: seq<nat>)
    requires Inv(items, fn, p) && ValidSchedule(items, fn, p, schedule)
    ensures Inv(items, fn, Run(items, fn, p, schedule))
    ensures Progress(Run(items, fn, p, schedule)) == Progress(p) + |schedule|
    ensures |Run(items, fn, p, schedule).workers| == |p.workers|
    decreases |schedule|
  {
    if schedule == [] {
    } else {
      StepInv(items, fn, p, schedule[0]);
      StepProgress(items, fn, p, schedule[0]);
      RunInv(items, fn, Step(items, fn, p, schedule[0]), schedule[1..]);
    }
  }

  /** What holds after any run from the initial pool, and why a run must end. */
  lemma {:induction false} RunFromInit<T, R>(items: seq<T>, fn: (T, nat) -> Option<R>, limit: nat, schedule: seq<nat>, p: Pool<R>)
    requires ValidSchedule(items, fn, Init<R>(|items|, limit), schedule)
    requires p == Run(items, fn, Init<R>(|items|, limit), schedule)
    ensures Inv(items, fn, p) && Progress(p) == |schedule| && |p.workers| == limit
    ensures |schedule| <= |items| + limit
  {
    InitInv(items, fn, limit);
    FreshCount(limit, Finished);
    RunInv(items, fn, Init<R>(|items|, limit), schedule);
    CountBound(p.workers, Finished);
  }

  /** Safety in every interleaving, at every moment: the calls started so far are
      the indices 0, 1, 2, ... in that order, at most `limit` are outstanding, and a
      slot that is filled holds its own item's value. */
  lemma {:induction false} PoolSafety<T, R>(items: seq<T>, concurrency: int, fn: (T, nat) -> Option<R>, schedule: seq<nat>, p: Pool<R>)
    requires ValidSchedule(items, fn, Init<R>(|items|, Limit(|items|, concurrency)), schedule)
    requires p == Run(items, fn, Init<R>(|items|, Limit(|items|, concurrency)), schedule)
    ensures |p.started| <= |items| && forall k :: 0 <= k < |p.started| ==> p.started[k] == k
    ensures |InFlight(p)| <= Limit(|items|, concurrency)
    ensures forall i :: 0 <= i < |items| ==> p.results[i] == None || p.results[i] == fn(items[i], i)
  {
    RunFromInit(items, fn, Limit(|items|, concurrency), schedule, p);
    InFlightBounded(items, fn, p);
  }

  /** No worker returns while an item is still unstarted, so capacity is never wasted. */
  lemma ReturnsOnlyWhenDrained<T, R>(items: seq<T>, fn: (T, nat) -> Option<R>, p: Pool<R>, w: nat)
    requires Inv(items, fn, p) && w < |p.workers| && p.workers[w] == Returned
    ensures |p.started| == |items|
  {
    CountUpdate(p.workers[w := Fresh], w, Returned, IsReturned);
    assert p.workers[w := Fresh][w := Returned] == p.workers;
  }

  lemma RunnableUnlessFinished<R>(p: Pool<R>)
    ensures (exists w :: Runnable(p, w)) <==> Count(p.workers, Finished) < |p.workers|
  {
    CountBound(p.workers, Finished);
    if Count(p.workers, Finished) < |p.workers| {
      var w :| 0 <= w < |p.workers| && !Finished(p.workers[w]);
      assert Runnable(p, w);
    }
  }

  /** With nothing left to run, every started call has its outcome in its slot. */
  lemma AllSettled<T, R>(items: seq<T>, fn: (T, nat) -> Option<R>, p: Pool<R>)
    requires Inv(items, fn, p) && forall w :: !Runnable(p, w)
    ensures forall i :: 0 <= i < |p.started| ==> p.results[i] == fn(items[i], i)
    ensures forall i :: 0 <= i < |p.started| && fn(items[i], i) == None ==> Rejects(p)
  {
    forall i | 0 <= i < |p.started|
      ensures p.results[i] == fn(items[i], i) && (fn(items[i], i) == None ==> Rejects(p))
    {
      if p.results[i] == None {
        assert Owned(p.workers, i);
        var w :| 0 <= w < |p.workers| && Holds(p.workers[w]) && p.workers[w].index == i;
        assert !Runnable(p, w);
      }
    }
  }

  /** Items are left over only if every worker has stopped on a rejected call, and these
      are all the rejected calls. */
  lemma LeftOverMeansAllRejected<T, R>(items: seq<T>, fn: (T, nat) -> Option<R>, p: Pool<R>)
    requires Inv(items, fn, p) && |p.workers| > 0 && |p.started| < |items| && forall w :: !Runnable(p, w)
    ensures Rejects(p) && |Misses(items, fn, |p.started|)| == |p.workers|
  {
    var misses := Misses(items, fn, |p.started|);
    forall w | 0 <= w < |p.workers| ensures Holds(p.workers[w]) && p.workers[w].index in misses {
      assert !Runnable(p, w);
      if p.workers[w] == Returned { ReturnsOnlyWhenDrained(items, fn, p, w); }
    }
    AllSettled(items, fn, p);
    HeldAtLeast(p.workers, misses);
    forall i | i in misses ensures Owned(p.workers, i) { assert p.results[i] == None; }
    HeldAtMost(p.workers, misses);
    assert Holds(p.workers[0]);
  }

  /** What a finished pool has done, whichever interleaving was taken: every started
      call's outcome is in its slot; the map rejects exactly when some call does; and the
      calls started are all of them, or the shortest prefix with `limit` rejected ones. */
  ghost predicate FinishedWell<T, R>(items: seq<T>, fn: (T, nat) -> Option<R>, limit: nat, p: Pool<R>) {
    && |p.started| <= |items| == |p.results|
    && (forall i :: 0 <= i < |items| ==> p.results[i] == if i < |p.started| then fn(items[i], i) else None)
    && (Rejects(p) <==> exists i :: 0 <= i < |items| && fn(items[i], i) == None)
    && (forall k :: 0 <= k < |p.started| ==> |Misses(items, fn, k)| < limit)
    && (|p.started| < |items| ==> |Misses(items, fn, |p.started|)| == limit)
  }

  lemma {:induction false} Smaller(a: set<nat>, b: set<nat>)
    requires a <= b
    ensures |a| <= |b|
  {
    if a == {} {
    } else {
      var x :| x in a;
      Smaller(a - {x}, b - {x});
    }
  }

  lemma RejectsExactly<T, R>(items: seq<T>, fn: (T, nat) -> Option<R>, p: Pool<R>)
    requires Inv(items, fn, p) && |p.workers| > 0 && forall w :: !Runnable(p, w)
    ensures Rejects(p) <==> exists i :: 0 <= i < |items| && fn(items[i], i) == None
  {
    if Rejects(p) {
      var w :| 0 <= w < |p.workers| && p.workers[w].Rejected?;
      assert Holds(p.workers[w]);
    }
    if |p.started| < |items| { LeftOverMeansAllRejected(items, fn, p); }
    AllSettled(items, fn, p);
  }

  lemma FinishedPool<T, R>(items: seq<T>, fn: (T, nat) -> Option<R>, p: Pool<R>)
    requires Inv(items, fn, p) && |p.workers| > 0 && forall w :: !Runnable(p, w)
    ensures FinishedWell(items, fn, |p.workers|, p)
  {
    AllSettled(items, fn, p);
    RejectsExactly(items, fn, p);
    if |p.started| < |items| { LeftOverMeansAllRejected(items, fn, p); }
    forall k | 0 <= k < |p.started| ensures |Misses(items, fn, k)| < |p.workers| {
      Smaller(Misses(items, fn, k), Misses(items, fn, |p.started| - 1));
    }
  }

  /** Progress: every run is at most `items + limit` steps long, and some worker can run
      exactly until each has finished once; where none can, whichever interleaving was
      taken, the pool has finished well. */
  lemma {:induction false} PoolProgress<T, R>(items: seq<T>, concurrency: int, fn: (T, nat) -> Option<R>, limit: nat, schedule: seq<nat>, p: Pool<R>)
    requires limit == Limit(|items|, concurrency)
    requires ValidSchedule(items, fn, Init<R>(|items|, limit), schedule)
    requires p == Run(items, fn, Init<R>(|items|, limit), schedule)
    ensures |schedule| <= |items| + limit
    ensures (exists w :: Runnable(p, w)) <==> |schedule| < |p.started| + limit
    ensures (forall w :: !Runnable(p, w)) ==> FinishedWell(items, fn, limit, p)
  {
    RunFromInit(items, fn, limit, schedule, p);
    RunnableUnlessFinished(p);
    if forall w :: !Runnable(p, w) { FinishedPool(items, fn, p); }
  }

  /** Where no call rejects, every slot holds `fn` of its item. */
  lemma NoneRejected<T, R>(items: seq<T>, fn: (T, nat) -> Option<R>, limit: nat, p: Pool<R>)
    requires FinishedWell(items, fn, limit, p) && limit > 0
    requires forall i :: 0 <= i < |items| ==> fn(items[i], i).Some?
    ensures !Rejects(p) && forall i :: 0 <= i < |items| ==> p.results[i] == fn(items[i], i)
  {
    assert Misses(items, fn, |p.started|) == {};
  }

  /** So which calls are made, what is stored, and whether the map rejects does not depend
      on the schedule. */
  lemma FinishedAlike<T, R>(items: seq<T>, fn: (T, nat) -> Option<R>, limit: nat, p: Pool<R>, q: Pool<R>)
    requires FinishedWell(items, fn, limit, p) && FinishedWell(items, fn, limit, q)
    ensures |p.started| == |q.started| && p.results == q.results && (Rejects(p) <==> Rejects(q))
  {
    assert |p.started| == |q.started|;
  }

  /** The pool itself, under a scheduler that resumes any worker it likes. The caller
      learns of a rejection at once; the other workers run on all the same. */
  method MapWithConcurrency<T, R>(items: seq<T>, concurrency: int, fn: (T, nat) -> Option<R>)
    returns (results: array<Option<R>>, rejected: bool)
    ensures results.Length == |items|
    ensures rejected <==> exists i :: 0 <= i < |items| && fn(items[i], i) == None
    ensures !rejected ==> forall i :: 0 <= i < |items| ==> results[i] == fn(items[i], i)
  {
    results := new Option<R>[|items|](_ => None);
    rejected := false;
    var next := 0;
    var limit := Limit(|items|, concurrency);
    var workers := seq(limit, _ => Fresh);
    ghost var p := Init<R>(|items|, limit);
    InitInv(items, fn, limit);
    CountBound(workers, Finished);
    while exists w :: 0 <= w < |workers| && !Finished(workers[w])
      invariant results.Length == |items| && |workers| == limit
      invariant Inv(items, fn, p)
      invariant p.next == next && p.workers == workers && p.results == results[..]
      invariant rejected <==> Rejects(p)
      invariant Progress(p) <= |items| + limit
      decreases |items| + limit - Progress(p)
    {
      var w :| 0 <= w < |workers| && !Finished(workers[w]);
      ghost var q := Step(items, fn, p, w);
      OneStep(items, fn, p, w);
      StepRejects(items, fn, p, w);
      var value := if workers[w].Awaiting? then fn(items[workers[w].index], workers[w].index) else None;
      if workers[w].Awaiting? && value == None {
        workers := workers[w := Rejected(workers[w].index)];
        rejected := true;
      } else {
        if workers[w].Awaiting? { results[workers[w].index] := value; }
        var i := next;
        next := next + 1;
        workers := workers[w := if i >= |items| then Returned else Awaiting(i)];
      }
      p := q;
    }
    FinishedPool(items, fn, p);
    if !rejected {
      NoneRejected(items, fn, limit, p);
      assert forall i :: 0 <= i < |items| ==> results[..][i] == results[i];
    }
  }

  lemma OneStep<T, R>(items: seq<T>, fn: (T, nat) -> Option<R>, p: Pool<R>, w: nat)
    requires Inv(items, fn, p) && Runnable(p, w)
    ensures var q := Step(items, fn, p, w);
      && Inv(items, fn, q) && |q.workers| == |p.workers| && Progress(q) == Progress(p) + 1
      && Progress(q) <= |items| + |q.workers|
  {
    StepInv(items, fn, p, w);
    StepProgress(items, fn, p, w);
    CountBound(Step(items, fn, p, w).workers, Finished);
  }

  /** A step rejects exactly if the call its worker awaited does; none is taken back. */
  lemma StepRejects<T, R>(items: seq<T>, fn: (T, nat) -> Option<R>, p: Pool<R>, w: nat)
    requires Inv(items, fn, p) && Runnable(p, w)
    ensures var worker := p.workers[w];
      Rejects(Step(items, fn, p, w)) <==>
        Rejects(p) || (worker.Awaiting? && fn(items[worker.index], worker.index) == None)
  {
    var q := Step(items, fn, p, w);
    assert q.workers[w].Rejected? <==> p.workers[w].Awaiting? && fn(items[p.workers[w].index], p.workers[w].index) == None;
    if Rejects(p) {
      var v :| 0 <= v < |p.workers| && p.workers[v].Rejected?;
      assert q.workers[v].Rejected?;
    }
  }
}
