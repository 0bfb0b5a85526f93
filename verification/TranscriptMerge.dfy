/** `appendEntries` of packages/cli/src/hq-dashboard-html.ts: the browser folds
    streamed turns into a transcript cache, writing a tool's result into the turn
    that holds its call, and keeps the newest CACHE_MAX turns. */
module TranscriptMerge {
  import opened Prelude

  const CACHE_MAX: nat := 6000
  // the backward search stops before index `length - WINDOW_END`
  const WINDOW_END: nat := 400

  datatype Role = User | Assistant | Tool | System | Error

  datatype Turn = Turn(
    ts: string,
    role: Role,
    text: string,
    tool: Option<string>,
    toolUseId: Option<string>,
    toolInput: Option<string>,
    durationMs: Option<int>,
    isError: bool,
    agentId: Option<string>)

  predicate IsResult(e: Turn) {
    (e.role == Tool || e.role == Error) && e.toolUseId.Some? && e.toolInput == None
  }

  predicate IsCallOf(c: Turn, result: Turn) {
    c.toolUseId == result.toolUseId && c.toolInput.Some?
  }

  /** The call turn after its result has been written into it. */
  function Merged(c: Turn, e: Turn): Turn {
    c.(text := e.text,
       durationMs := if e.durationMs.Some? then e.durationMs else c.durationMs,
       role := if e.isError then Error else c.role,
       isError := c.isError || e.isError)
  }

  function WindowStart(length: nat): nat {
    if length >= WINDOW_END then length - WINDOW_END + 1 else 0
  }

  /** The newest call in the window that a result belongs to. */
  function LastCall(cache: seq<Turn>, e: Turn, from: nat): (at: Option<nat>)
    requires from <= |cache|
    ensures at.Some? ==>
              WindowStart(|cache|) <= at.value < from && IsCallOf(cache[at.value], e) &&
              forall j :: at.value < j < from ==> !IsCallOf(cache[j], e)
    ensures at == None ==> forall j :: WindowStart(|cache|) <= j < from ==> !IsCallOf(cache[j], e)
  {
    if from <= WindowStart(|cache|) then None
    else if IsCallOf(cache[from - 1], e) then Some(from - 1)
    else LastCall(cache, e, from - 1)
  }

  function Absorb(cache: seq<Turn>, e: Turn): seq<Turn> {
    var at := if IsResult(e) then LastCall(cache, e, |cache|) else None;
    if at.Some? then cache[at.value := Merged(cache[at.value], e)] else cache + [e]
  }

  function AbsorbAll(cache: seq<Turn>, news: seq<Turn>): seq<Turn> {
    if news == [] then cache
    else Absorb(AbsorbAll(cache, news[..|news| - 1]), news[|news| - 1])
  }

  /** One `appendEntries` call. */
  function AppendBatch(cache: seq<Turn>, news: seq<Turn>): seq<Turn> {
    Newest(AbsorbAll(cache, news), CACHE_MAX)
  }

  function AppendBatches(cache: seq<Turn>, batches: seq<seq<Turn>>): seq<Turn>
    decreases |batches|
  {
    if batches == [] then cache else AppendBatches(AppendBatch(cache, batches[0]), batches[1..])
  }

  lemma {:induction false} AbsorbAllAppend(cache: seq<Turn>, a: seq<Turn>, b: seq<Turn>)
    ensures AbsorbAll(cache, a + b) == AbsorbAll(AbsorbAll(cache, a), b)
  {
    if b == [] {
      assert a + b == a;
    } else {
      AbsorbAllAppend(cache, a, b[..|b| - 1]);
      assert (a + b)[..|a + b| - 1] == a + b[..|b| - 1];
    }
  }

  /** The window lies inside the cap, so a trimmed cache finds the same call. */
  lemma {:induction false} LastCallTrimmed(cache: seq<Turn>, e: Turn, from: nat)
    requires CACHE_MAX < |cache| && |cache| - CACHE_MAX <= from <= |cache|
    ensures var cut := |cache| - CACHE_MAX;
      LastCall(Newest(cache, CACHE_MAX), e, from - cut) ==
      match LastCall(cache, e, from) { case None => None case Some(i) => Some(i - cut) }
  {
    if from <= WindowStart(|cache|) || IsCallOf(cache[from - 1], e) {
    } else {
      LastCallTrimmed(cache, e, from - 1);
    }
  }

  lemma AbsorbTrimmed(cache: seq<Turn>, e: Turn)
    ensures Newest(Absorb(Newest(cache, CACHE_MAX), e), CACHE_MAX) == Newest(Absorb(cache, e), CACHE_MAX)
  {
    if |cache| > CACHE_MAX {
      if IsResult(e) { LastCallTrimmed(cache, e, |cache|); }
    }
  }

  lemma {:induction false} AbsorbAllTrimmed(cache: seq<Turn>, news: seq<Turn>)
    ensures AppendBatch(Newest(cache, CACHE_MAX), news) == AppendBatch(cache, news)
  {
    if news == [] {
    } else {
      var init, e := news[..|news| - 1], news[|news| - 1];
      AbsorbAllTrimmed(cache, init);
      AbsorbTrimmed(AbsorbAll(Newest(cache, CACHE_MAX), init), e);
      AbsorbTrimmed(AbsorbAll(cache, init), e);
    }
  }

  /** One call keeps the newest 6000 turns. */
  lemma KeepsTheNewest(cache: seq<Turn>, news: seq<Turn>)
    ensures var all := AbsorbAll(cache, news);
      AppendBatch(cache, news) == if |all| <= 6000 then all else all[|all| - 6000..]
  {
  }

  /** Cutting the stream into batches is invisible: the cache is the capped fold of
      the flattened stream. */
  lemma {:induction false} BatchesFold(cache: seq<Turn>, batches: seq<seq<Turn>>)
    requires batches != [] || |cache| <= CACHE_MAX
    ensures AppendBatches(cache, batches) == AppendBatch(cache, Flatten(batches))
    decreases |batches|
  {
    if batches == [] {
    } else {
      var rest := batches[1..];
      BatchesFold(AppendBatch(cache, batches[0]), rest);
      AbsorbAllTrimmed(AbsorbAll(cache, batches[0]), Flatten(rest));
      AbsorbAllAppend(cache, batches[0], Flatten(rest));
    }
  }

  lemma BatchingInvariance(cache: seq<Turn>, one: seq<seq<Turn>>, other: seq<seq<Turn>>)
    requires Flatten(one) == Flatten(other)
    requires |cache| <= CACHE_MAX || (one != [] && other != [])
    ensures AppendBatches(cache, one) == AppendBatches(cache, other)
    ensures |AppendBatches(cache, one)| <= CACHE_MAX
  {
    BatchesFold(cache, one);
    BatchesFold(cache, other);
  }

  /** A result that follows its call within the window never opens a second box:
      it lands in the call's turn, which keeps the call's own identity and input,
      and no other turn changes. */
  lemma ResultJoinsItsCall(cache: seq<Turn>, call: Turn, between: seq<Turn>, result: Turn)
    requires IsResult(result) && IsCallOf(call, result)
    requires |between| < WINDOW_END - 1
    requires forall t :: t in between ==> !IsCallOf(t, result)
    ensures Absorb(cache + [call] + between, result) == cache + [Merged(call, result)] + between
    ensures IsCallOf(Merged(call, result), result) && Merged(call, result).text == result.text
  {
    var all := cache + [call] + between;
    assert all[|cache|] == call;
    assert forall j :: |cache| < j < |all| ==> all[j] == between[j - |cache| - 1];
    assert LastCall(all, result, |all|) == Some(|cache|);
  }

  /** The turn at `i` is the newest one, among the last 399, that holds the call `e` is
      the result of: a tool or error turn with the call's id and no input of its own. */
  ghost predicate HoldsItsCall(cache: seq<Turn>, e: Turn, i: nat) {
    && e.role in {Tool, Error} && e.toolUseId.Some? && e.toolInput == None
    && i < |cache| && i > |cache| - 400
    && cache[i].toolUseId == e.toolUseId && cache[i].toolInput.Some?
    && forall j :: i < j < |cache| ==> cache[j].toolUseId != e.toolUseId || cache[j].toolInput == None
  }

  /** A call's turn with its result: text and, when reported, duration are the result's,
      an error makes it an error turn, and the rest is the call's. */
  ghost predicate Answered(c: Turn, e: Turn, r: Turn) {
    && r.text == e.text
    && r.durationMs == (if e.durationMs.Some? then e.durationMs else c.durationMs)
    && (e.isError ==> r.role == Error && r.isError)
    && (!e.isError ==> r.role == c.role && r.isError == c.isError)
    && r.ts == c.ts && r.tool == c.tool && r.toolUseId == c.toolUseId && r.toolInput == c.toolInput && r.agentId == c.agentId
  }

  /** One entry: it is written into the turn that holds its call, if there is one, and
      appended otherwise. */
  lemma OneEntry(cache: seq<Turn>, e: Turn)
    ensures forall i: nat :: HoldsItsCall(cache, e, i) ==>
              && |Absorb(cache, e)| == |cache| && Answered(cache[i], e, Absorb(cache, e)[i])
              && forall j :: 0 <= j < |cache| && j != i ==> Absorb(cache, e)[j] == cache[j]
    ensures (forall i: nat :: !HoldsItsCall(cache, e, i)) ==> Absorb(cache, e) == cache + [e]
  {
    if IsResult(e) {
      var at := LastCall(cache, e, |cache|);
      if at.Some? { assert HoldsItsCall(cache, e, at.value); }
      forall i: nat | HoldsItsCall(cache, e, i) ensures at == Some(i) { assert IsCallOf(cache[i], e); }
    }
  }

  /** A cached turn: JavaScript shares these objects between `news` and the cache,
      and the merge overwrites their fields. */
  class Entry {
    const ts: string
    var role: Role
    var text: string
    const tool: Option<string>
    const toolUseId: Option<string>
    const toolInput: Option<string>
    var durationMs: Option<int>
    var isError: bool
    const agentId: Option<string>

    constructor (t: Turn)
      ensures Value() == t
    {
      ts, role, text, tool, toolUseId, toolInput := t.ts, t.role, t.text, t.tool, t.toolUseId, t.toolInput;
      durationMs, isError, agentId := t.durationMs, t.isError, t.agentId;
    }

    function Value(): Turn
      reads this
    {
      Turn(ts, role, text, tool, toolUseId, toolInput, durationMs, isError, agentId)
    }
  }

  ghost function Values(entries: seq<Entry>): (r: seq<Turn>)
    reads entries
    ensures |r| == |entries| && forall i :: 0 <= i < |r| ==> r[i] == entries[i].Value()
  {
    seq(|entries|, i requires 0 <= i < |entries| reads entries => entries[i].Value())
  }

  class TranscriptCache {
    var entries: seq<Entry>

    constructor ()
      ensures entries == []
    {
      entries := [];
    }

    /** Newest matching call in the window, or None. */
    method FindCall(e: Entry) returns (at: Option<nat>)
      ensures at == LastCall(Values(entries), e.Value(), |entries|)
    {
      var i := |entries| - 1;
      while i >= 0 && i > |entries| - WINDOW_END
        invariant -1 <= i < |entries|
        invariant i >= WindowStart(|entries|) - 1
        invariant LastCall(Values(entries), e.Value(), i + 1) == LastCall(Values(entries), e.Value(), |entries|)
      {
        if entries[i].toolUseId == e.toolUseId && entries[i].toolInput.Some? {
          assert IsCallOf(Values(entries)[i], e.Value());
          return Some(i);
        }
        i := i - 1;
      }
      return None;
    }

    /** Overwrites the fields of the call at `at` with what its result reports. */
    method WriteResult(at: nat, e: Entry)
      requires at < |entries| && Distinct(entries) && e !in entries
      modifies entries[at]
      ensures Values(entries) == old(Values(entries))[at := Merged(old(entries[at].Value()), e.Value())]
    {
      var c := entries[at];
      c.text := e.text;
      if e.durationMs.Some? { c.durationMs := e.durationMs; }
      if e.isError { c.role := Error; c.isError := true; }
    }

    method Push(e: Entry)
      requires Distinct(entries) && e !in entries
      modifies this
      ensures entries == old(entries) + [e] && Distinct(entries)
      ensures Values(entries) == old(Values(entries)) + [e.Value()]
    {
      entries := entries + [e];
    }

    /** The body of the outer loop: merge a result into its call, else push. */
    method AppendEntry(e: Entry)
      requires Distinct(entries) && e !in entries
      modifies this, entries
      ensures Values(entries) == Absorb(old(Values(entries)), old(e.Value()))
      ensures entries == old(entries) || entries == old(entries) + [e]
      ensures Distinct(entries)
    {
      var at := None;
      if (e.role == Tool || e.role == Error) && e.toolUseId.Some? && e.toolInput == None {
        at := FindCall(e);
      }
      if at.Some? {
        WriteResult(at.value, e);
      } else {
        Push(e);
      }
    }

    method TrimToCap()
      requires Distinct(entries)
      modifies this
      ensures Values(entries) == Newest(old(Values(entries)), CACHE_MAX) && Distinct(entries)
    {
      if |entries| > CACHE_MAX {
        entries := entries[|entries| - CACHE_MAX..];
      }
    }

    /** One turn of the loop: the entries still to come stay as they are, outside the cache. */
    method AppendNext(news: seq<Entry>, k: nat)
      requires k < |news| && Distinct(entries) && Distinct(news)
      requires forall j :: k <= j < |news| ==> news[j] !in entries
      modifies this, entries
      ensures Values(entries) == Absorb(old(Values(entries)), old(news[k].Value()))
      ensures Distinct(entries) && forall j :: k < j < |news| ==> news[j] !in entries
      ensures forall j :: k < j < |news| ==> news[j].Value() == old(news[j].Value())
      ensures forall j :: 0 <= j < |entries| ==> entries[j] in old(entries) || entries[j] == news[k]
    {
      AppendEntry(news[k]);
    }

    /** JSON parsing makes every new entry a fresh object: hence the distinctness. */
    method AppendEntries(news: seq<Entry>)
      requires Distinct(entries) && Distinct(news) && forall e :: e in news ==> e !in entries
      modifies this, entries, news
      ensures Values(entries) == AppendBatch(old(Values(entries)), old(Values(news)))
      ensures Distinct(entries)
    {
      ghost var was, stream := Values(entries), Values(news);
      for k := 0 to |news|
        invariant Distinct(entries) && forall j :: k <= j < |news| ==> news[j] !in entries
        invariant forall j :: 0 <= j < |entries| ==> entries[j] in old(entries) || entries[j] in news
        invariant forall j :: k <= j < |news| ==> news[j].Value() == stream[j]
        invariant Values(entries) == AbsorbAll(was, stream[..k])
      {
        assert stream[..k + 1][..k] == stream[..k];
        AppendNext(news, k);
      }
      assert stream[..|news|] == stream;
      TrimToCap();
    }
  }
}
