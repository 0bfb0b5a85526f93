/** The bounded transcript and agent-message rings of packages/cli/src/hq-server.ts:
    a map from session (or subagent) id to its newest entries, kept in
    least-recently-written order and evicted from the front. */
module TranscriptRings {
  import opened Prelude
  import opened OrderedMap

  const TRANSCRIPT_RING_MAX: nat := 4000
  const MAX_TRANSCRIPT_SESSIONS: nat := 400
  const MAX_AGENT_RINGS: nat := 800

  datatype Ring<E> = Ring(entries: seq<E>, machineId: Option<string>)

  /** One accepted `session.transcript` or `agent.message` event. */
  datatype Write<K, E> = Write(id: K, entries: seq<E>, machineId: Option<string>)

  /** The map after one write. */
  function Record<K(==), E>(rings: OMap<K, Ring<E>>, w: Write<K, E>, maxRings: nat, maxEntries: nat): OMap<K, Ring<E>> {
    var ring := match Get(rings, w.id) case Some(r) => r case None => Ring([], w.machineId);
    Newest(Delete(rings, w.id) + [(w.id, ring.(entries := Newest(ring.entries + w.entries, maxEntries)))], maxRings)
  }

  /** The map after a whole run of writes, starting empty. */
  function After<K(==), E>(trace: seq<Write<K, E>>, maxRings: nat, maxEntries: nat): OMap<K, Ring<E>> {
    if trace == [] then []
    else Record(After(trace[..|trace| - 1], maxRings, maxEntries), trace[|trace| - 1], maxRings, maxEntries)
  }

  // ---------------------------------------------------------------- trace view

  /** Number of the last write to `id`, counting from 1; 0 if it was never written. */
  function LastWrite<K(==), E>(trace: seq<Write<K, E>>, id: K): nat {
    if trace == [] then 0
    else if trace[|trace| - 1].id == id then |trace|
    else LastWrite(trace[..|trace| - 1], id)
  }

  /** `ids` is every id written, oldest last write first. */
  ghost predicate InLastWriteOrder<K(!new), E>(trace: seq<Write<K, E>>, ids: seq<K>) {
    && (forall i :: 0 <= i < |ids| ==> LastWrite(trace, ids[i]) > 0)
    && (forall i, j :: 0 <= i < j < |ids| ==> LastWrite(trace, ids[i]) < LastWrite(trace, ids[j]))
    && (forall id :: LastWrite(trace, id) > 0 ==> id in ids)
  }

  function Without<K(==)>(ids: seq<K>, id: K): (r: seq<K>) {
    if ids == [] then []
    else if ids[0] == id then ids[1..]
    else [ids[0]] + Without(ids[1..], id)
  }

  function Recency<K(==), E>(trace: seq<Write<K, E>>): seq<K> {
    if trace == [] then []
    else Without(Recency(trace[..|trace| - 1]), trace[|trace| - 1].id) + [trace[|trace| - 1].id]
  }

  /** The ids a run has left in the map. */
  function Live<K(==), E>(trace: seq<Write<K, E>>, maxRings: nat): seq<K> {
    Newest(Recency(trace), maxRings)
  }

  /** Everything appended for `id`, oldest first. */
  function EntriesOf<K(==), E>(trace: seq<Write<K, E>>, id: K): seq<E> {
    if trace == [] then []
    else EntriesOf(trace[..|trace| - 1], id) + if trace[|trace| - 1].id == id then trace[|trace| - 1].entries else []
  }

  /** Write number `s` (from 0) brought `id` into the map, where it has stayed since. */
  ghost predicate PresentSince<K, E>(trace: seq<Write<K, E>>, id: K, s: nat, maxRings: nat) {
    && s < |trace| && trace[s].id == id
    && id !in Live(trace[..s], maxRings)
    && forall k :: s < k <= |trace| ==> id in Live(trace[..k], maxRings)
  }

  lemma {:induction false} WithoutMembers<K>(ids: seq<K>, id: K)
    requires Distinct(ids)
    ensures Distinct(Without(ids, id)) && id !in Without(ids, id)
    ensures forall x :: x in Without(ids, id) <==> x in ids && x != id
    ensures id !in ids ==> Without(ids, id) == ids
  {
    if ids == [] {
    } else {
      assert forall i, j :: 0 <= i < j < |ids[1..]| ==> ids[1..][i] == ids[i + 1] && ids[1..][j] == ids[j + 1];
      assert ids == [ids[0]] + ids[1..];
      assert ids[0] !in ids[1..];
      WithoutMembers(ids[1..], id);
    }
  }

  lemma DistinctTail<K>(ids: seq<K>, k: nat)
    requires Distinct(ids) && 0 < k < |ids|
    ensures Distinct(ids[1..]) && ids[0] != ids[k]
  {
    forall i, j | 0 <= i < j < |ids[1..]| ensures ids[1..][i] != ids[1..][j] {
      assert ids[1..][i] == ids[i + 1] && ids[1..][j] == ids[j + 1];
    }
  }

  lemma {:induction false} WithoutAt<K>(ids: seq<K>, k: nat)
    requires Distinct(ids) && k < |ids|
    ensures Without(ids, ids[k]) == ids[..k] + ids[k + 1..]
  {
    if k == 0 {
    } else {
      DistinctTail(ids, k);
      WithoutAt(ids[1..], k - 1);
      assert ids[1..][k - 1] == ids[k];
    }
  }

  lemma {:induction false} RecencyMembers<K, E>(trace: seq<Write<K, E>>)
    ensures Distinct(Recency(trace))
    ensures forall id :: id in Recency(trace) <==> LastWrite(trace, id) > 0
  {
    if trace == [] {
    } else {
      var init, id := trace[..|trace| - 1], trace[|trace| - 1].id;
      RecencyMembers(init);
      WithoutMembers(Recency(init), id);
    }
  }

  /** Elements of `Without` keep their relative order. */
  lemma {:induction false} WithoutOrder<K>(ids: seq<K>, id: K, i: nat, j: nat) returns (u: nat, v: nat)
    requires i < j < |Without(ids, id)|
    ensures u < v < |ids| && ids[u] == Without(ids, id)[i] && ids[v] == Without(ids, id)[j]
  {
    if ids[0] == id {
      u, v := i + 1, j + 1;
    } else if i == 0 {
      v := WithoutFind(ids, id, j);
      u := 0;
    } else {
      u, v := WithoutOrder(ids[1..], id, i - 1, j - 1);
      u, v := u + 1, v + 1;
    }
  }

  lemma {:induction false} WithoutFind<K>(ids: seq<K>, id: K, j: nat) returns (v: nat)
    requires j < |Without(ids, id)|
    ensures j <= v < |ids| && ids[v] == Without(ids, id)[j]
  {
    if ids[0] == id {
      v := j + 1;
    } else if j == 0 {
      v := 0;
    } else {
      v := WithoutFind(ids[1..], id, j - 1);
      v := v + 1;
    }
  }

  lemma LaterWrite<K(!new), E>(trace: seq<Write<K, E>>, i: nat, j: nat)
    requires trace != [] && InLastWriteOrder(trace[..|trace| - 1], Recency(trace[..|trace| - 1]))
    requires i < j < |Recency(trace)|
    ensures LastWrite(trace, Recency(trace)[i]) < LastWrite(trace, Recency(trace)[j])
  {
    var init, id := trace[..|trace| - 1], trace[|trace| - 1].id;
    RecencyMembers(init);
    WithoutMembers(Recency(init), id);
    LastWriteBound(init);
    if j < |Recency(trace)| - 1 {
      var u, v := WithoutOrder(Recency(init), id, i, j);
    }
  }

  /** The recency list is every written id, ordered by last write. */
  lemma {:induction false} RecencyIsLastWriteOrder<K(!new), E>(trace: seq<Write<K, E>>)
    ensures InLastWriteOrder(trace, Recency(trace))
  {
    RecencyMembers(trace);
    if trace == [] {
    } else {
      RecencyIsLastWriteOrder(trace[..|trace| - 1]);
      forall i, j | 0 <= i < j < |Recency(trace)|
        ensures LastWrite(trace, Recency(trace)[i]) < LastWrite(trace, Recency(trace)[j])
      {
        LaterWrite(trace, i, j);
      }
    }
  }

  function IndexOf<K(==)>(ids: seq<K>, id: K): (k: nat)
    requires id in ids
    ensures k < |ids| && ids[k] == id
  {
    if ids[0] == id then 0 else 1 + IndexOf(ids[1..], id)
  }

  lemma {:induction false} LastWriteBound<K, E>(trace: seq<Write<K, E>>)
    ensures forall id :: LastWrite(trace, id) <= |trace|
  {
    if trace == [] {
    } else {
      LastWriteBound(trace[..|trace| - 1]);
    }
  }

  /** Moving element `k` to the back, before or after dropping all but `n`. */
  lemma MoveThenKeep<K>(ids: seq<K>, k: nat, n: nat, all: seq<K>, kept: seq<K>)
    requires k < |ids| && n > 0 && all == ids[..k] + ids[k + 1..]
    requires var newest, cut := Newest(ids, n), |ids| - |Newest(ids, n)|;
      kept == if k >= cut then newest[..k - cut] + newest[k - cut + 1..] else newest
    ensures Newest(kept + [ids[k]], n) == Newest(all + [ids[k]], n)
  {
    var cut := |ids| - |Newest(ids, n)|;
    if k >= cut {
      assert all[cut..] == kept;
    } else {
      assert all[cut..] == kept[1..];
    }
    AppendThenKeep(all, ids[k], cut, n);
    if k < cut { AppendThenKeep(kept, ids[k], 1, n); }
  }

  lemma AppendThenKeep<K>(s: seq<K>, x: K, cut: nat, n: nat)
    requires cut <= |s| && (|s| + 1 - cut == n || (cut == 0 && |s| < n))
    ensures Newest(s + [x], n) == s[cut..] + [x]
  {
  }

  lemma DistinctNewest<K>(ids: seq<K>, n: nat)
    requires Distinct(ids)
    ensures Distinct(Newest(ids, n))
  {
  }

  lemma NotInNewest<K>(ids: seq<K>, n: nat, k: nat)
    requires Distinct(ids) && k < |ids| - |Newest(ids, n)|
    ensures ids[k] !in Newest(ids, n)
  {
  }

  /** Removing an id and re-appending it commutes with keeping the newest ids. */
  lemma RemoveThenKeep<K>(ids: seq<K>, id: K, n: nat)
    requires Distinct(ids) && n > 0
    ensures Newest(Without(Newest(ids, n), id) + [id], n) == Newest(Without(ids, id) + [id], n)
  {
    if id !in ids {
      RemoveAbsent(ids, id, n);
    } else {
      RemoveAt(ids, IndexOf(ids, id), n);
    }
  }

  lemma RemoveAbsent<K>(ids: seq<K>, id: K, n: nat)
    requires Distinct(ids) && id !in ids
    ensures Newest(Without(Newest(ids, n), id) + [id], n) == Newest(Without(ids, id) + [id], n)
  {
    DistinctNewest(ids, n);
    WithoutMembers(ids, id);
    WithoutMembers(Newest(ids, n), id);
    NewestOfAppend(ids, [id], n);
  }

  lemma WithoutNewest<K>(ids: seq<K>, k: nat, n: nat)
    requires Distinct(ids) && k < |ids|
    ensures var kept, cut := Newest(ids, n), |ids| - |Newest(ids, n)|;
      Without(kept, ids[k]) == if k >= cut then kept[..k - cut] + kept[k - cut + 1..] else kept
  {
    DistinctNewest(ids, n);
    if k >= |ids| - |Newest(ids, n)| {
      WithoutAt(Newest(ids, n), k - (|ids| - |Newest(ids, n)|));
    } else {
      NotInNewest(ids, n, k);
      WithoutMembers(Newest(ids, n), ids[k]);
    }
  }

  lemma {:induction false} RemoveAt<K>(ids: seq<K>, k: nat, n: nat)
    requires Distinct(ids) && k < |ids| && n > 0
    ensures Newest(Without(Newest(ids, n), ids[k]) + [ids[k]], n) == Newest(Without(ids, ids[k]) + [ids[k]], n)
  {
    WithoutAt(ids, k);
    WithoutNewest(ids, k, n);
    MoveThenKeep(ids, k, n, Without(ids, ids[k]), Without(Newest(ids, n), ids[k]));
  }

  lemma {:induction false} KeysOfDelete<K, E>(rings: OMap<K, Ring<E>>, id: K)
    ensures Keys(Delete(rings, id)) == Without(Keys(rings), id)
  {
    if rings == [] {
    } else {
      KeysOfDelete(rings[1..], id);
      assert Keys(rings)[1..] == Keys(rings[1..]);
      assert Keys(Delete(rings, id)) == if rings[0].0 == id then Keys(rings[1..])
             else [rings[0].0] + Keys(Delete(rings[1..], id));
    }
  }

  lemma KeysOfRecord<K, E>(rings: OMap<K, Ring<E>>, w: Write<K, E>, maxRings: nat, maxEntries: nat)
    ensures Keys(Record(rings, w, maxRings, maxEntries)) == Newest(Without(Keys(rings), w.id) + [w.id], maxRings)
  {
    var ring := match Get(rings, w.id) case Some(r) => r case None => Ring([], w.machineId);
    KeysOfDelete(rings, w.id);
    KeysOfAppend(Delete(rings, w.id), w.id, ring.(entries := Newest(ring.entries + w.entries, maxEntries)), maxRings);
  }

  /** One write's effect on the live ids, without looking at the rest of the trace. */
  lemma LiveStep<K, E>(trace: seq<Write<K, E>>, maxRings: nat)
    requires trace != [] && maxRings > 0
    ensures var w := trace[|trace| - 1].id;
      Live(trace, maxRings) == Newest(Without(Live(trace[..|trace| - 1], maxRings), w) + [w], maxRings)
  {
    RecencyMembers(trace[..|trace| - 1]);
    RemoveThenKeep(Recency(trace[..|trace| - 1]), trace[|trace| - 1].id, maxRings);
  }

  /** The map holds exactly the `maxRings` most recently written ids, in last-write
      order. */
  lemma {:induction false} KeysRefineTrace<K, E>(trace: seq<Write<K, E>>, maxRings: nat, maxEntries: nat)
    requires maxRings > 0
    ensures Keys(After(trace, maxRings, maxEntries)) == Live(trace, maxRings)
    ensures Unique(After(trace, maxRings, maxEntries))
  {
    if trace == [] {
    } else {
      var init := trace[..|trace| - 1];
      KeysRefineTrace(init, maxRings, maxEntries);
      LiveStep(trace, maxRings);
      KeysOfRecord(After(init, maxRings, maxEntries), trace[|trace| - 1], maxRings, maxEntries);
    }
    RecencyMembers(trace);
    assert Distinct(Live(trace, maxRings));
    UniqueKeys(After(trace, maxRings, maxEntries));
  }

  /** What one write leaves under each id that survives it. */
  lemma {:induction false} RecordGet<K, E>(rings: OMap<K, Ring<E>>, w: Write<K, E>, maxRings: nat, maxEntries: nat, id: K)
    requires Unique(rings) && Has(Record(rings, w, maxRings, maxEntries), id)
    ensures Get(Record(rings, w, maxRings, maxEntries), id) ==
            if id != w.id then Get(rings, id)
            else var ring := match Get(rings, id) case Some(r) => r case None => Ring([], w.machineId);
              Some(Ring(Newest(ring.entries + w.entries, maxEntries), ring.machineId))
  {
    var ring := match Get(rings, w.id) case Some(r) => r case None => Ring([], w.machineId);
    var moved := ring.(entries := Newest(ring.entries + w.entries, maxEntries));
    DeleteGet(rings, w.id, w.id);
    DeleteGet(rings, w.id, id);
    PutAbsent(Delete(rings, w.id), w.id, moved);
    PutUnique(Delete(rings, w.id), w.id, moved);
    PutGet(Delete(rings, w.id), w.id, moved, id);
    GetOfNewest(Put(Delete(rings, w.id), w.id, moved), maxRings, id);
  }

  /** A write can only bring its own id into the map, and always does. */
  lemma LiveAfterWrite<K, E>(trace: seq<Write<K, E>>, maxRings: nat, id: K)
    requires trace != [] && maxRings > 0
    ensures trace[|trace| - 1].id in Live(trace, maxRings)
    ensures id in Live(trace, maxRings) ==> id == trace[|trace| - 1].id || id in Live(trace[..|trace| - 1], maxRings)
  {
    var init, w := trace[..|trace| - 1], trace[|trace| - 1].id;
    LiveStep(trace, maxRings);
    RecencyMembers(init);
    assert Distinct(Live(init, maxRings));
    WithoutMembers(Live(init, maxRings), w);
    assert Live(trace, maxRings)[|Live(trace, maxRings)| - 1] == w;
  }

  /** The ring a live id ends up with: the newest entries appended since write `s`,
      under the machine id of that write. */
  function RingSince<K(==), E>(trace: seq<Write<K, E>>, id: K, s: nat, maxEntries: nat): Ring<E>
    requires s < |trace|
  {
    Ring(Newest(EntriesOf(trace[s..], id), maxEntries), trace[s].machineId)
  }

  lemma RingSinceStep<K, E>(trace: seq<Write<K, E>>, id: K, s: nat, maxEntries: nat)
    requires s + 1 < |trace|
    ensures var w, was := trace[|trace| - 1], RingSince(trace[..|trace| - 1], id, s, maxEntries);
      RingSince(trace, id, s, maxEntries) ==
      if id != w.id then was else Ring(Newest(was.entries + w.entries, maxEntries), was.machineId)
  {
    EntriesStep(trace, s, id);
    NewestOfAppend(EntriesOf(trace[..|trace| - 1][s..], id), trace[|trace| - 1].entries, maxEntries);
  }

  lemma RingSinceStart<K, E>(trace: seq<Write<K, E>>, maxEntries: nat)
    requires trace != []
    ensures var w := trace[|trace| - 1];
      RingSince(trace, w.id, |trace| - 1, maxEntries) == Ring(Newest([] + w.entries, maxEntries), w.machineId)
  {
    EntriesStep(trace, |trace| - 1, trace[|trace| - 1].id);
  }

  /** Each ring holds the newest `maxEntries` entries appended since its id was last
      absent, and the machine id of the write that brought it in. */
  lemma {:induction false} RingRefinesTrace<K, E>(trace: seq<Write<K, E>>, maxRings: nat, maxEntries: nat, id: K)
    returns (s: nat)
    requires maxRings > 0 && id in Live(trace, maxRings)
    ensures PresentSince(trace, id, s, maxRings)
    ensures Get(After(trace, maxRings, maxEntries), id) == Some(RingSince(trace, id, s, maxEntries))
  {
    RingStep(trace, maxRings, maxEntries, id);
    LiveAfterWrite(trace, maxRings, id);
    if id in Live(trace[..|trace| - 1], maxRings) {
      s := RingRefinesTrace(trace[..|trace| - 1], maxRings, maxEntries, id);
      StillPresent(trace, id, s, maxRings);
      RingSinceStep(trace, id, s, maxEntries);
    } else {
      s := |trace| - 1;
      assert trace[..|trace|] == trace;
      RingSinceStart(trace, maxEntries);
    }
  }

  lemma EntriesStep<K, E>(trace: seq<Write<K, E>>, s: nat, id: K)
    requires s < |trace|
    ensures EntriesOf(trace[s..], id) ==
            EntriesOf(trace[..|trace| - 1][s..], id) + if trace[|trace| - 1].id == id then trace[|trace| - 1].entries else []
  {
    assert trace[s..][..|trace[s..]| - 1] == trace[..|trace| - 1][s..];
  }

  lemma StillPresent<K, E>(trace: seq<Write<K, E>>, id: K, s: nat, maxRings: nat)
    requires trace != [] && id in Live(trace, maxRings)
    requires PresentSince(trace[..|trace| - 1], id, s, maxRings)
    ensures PresentSince(trace, id, s, maxRings)
  {
    var init := trace[..|trace| - 1];
    assert trace[..s] == init[..s];
    forall k | s < k <= |trace| ensures id in Live(trace[..k], maxRings) {
      if k < |trace| {
        assert trace[..k] == init[..k];
      } else {
        assert trace[..k] == trace;
      }
    }
  }

  /** The ring of a live id after the last write, from the ring before it. */
  lemma RingStep<K, E>(trace: seq<Write<K, E>>, maxRings: nat, maxEntries: nat, id: K)
    requires trace != [] && maxRings > 0 && id in Live(trace, maxRings)
    ensures var init, w := trace[..|trace| - 1], trace[|trace| - 1];
      var was := Get(After(init, maxRings, maxEntries), id);
      && (was.Some? <==> id in Live(init, maxRings))
      && Get(After(trace, maxRings, maxEntries), id) ==
         if id != w.id then was
         else var ring := match was case Some(r) => r case None => Ring([], w.machineId);
           Some(Ring(Newest(ring.entries + w.entries, maxEntries), ring.machineId))
  {
    var init := trace[..|trace| - 1];
    KeysRefineTrace(init, maxRings, maxEntries);
    LiveIsHas(trace, maxRings, maxEntries, id);
    LiveIsHas(init, maxRings, maxEntries, id);
    HasGet(After(init, maxRings, maxEntries), id);
    RecordGet(After(init, maxRings, maxEntries), trace[|trace| - 1], maxRings, maxEntries, id);
  }

  lemma LiveIsHas<K, E>(trace: seq<Write<K, E>>, maxRings: nat, maxEntries: nat, id: K)
    requires maxRings > 0
    ensures Has(After(trace, maxRings, maxEntries), id) <==> id in Live(trace, maxRings)
  {
    var m := After(trace, maxRings, maxEntries);
    KeysRefineTrace(trace, maxRings, maxEntries);
    HasGet(m, id);
    if Has(m, id) {
      var i :| 0 <= i < |m| && m[i].0 == id;
      assert Keys(m)[i] == id;
    }
  }

  lemma RingsAreBounded<K, E>(trace: seq<Write<K, E>>, maxRings: nat, maxEntries: nat, id: K)
    requires maxRings > 0
    ensures var rings := After(trace, maxRings, maxEntries);
      |rings| <= maxRings && (Get(rings, id).Some? ==> |Get(rings, id).value.entries| <= maxEntries)
  {
    KeysRefineTrace(trace, maxRings, maxEntries);
    LiveIsHas(trace, maxRings, maxEntries, id);
    HasGet(After(trace, maxRings, maxEntries), id);
    if id in Live(trace, maxRings) { var s := RingRefinesTrace(trace, maxRings, maxEntries, id); }
  }

  /** The server's two maps: transcripts of at most 400 sessions and messages of at most
      800 subagents, each of at most 4000 entries. */
  lemma ServerRingsAreBounded<K, E>(trace: seq<Write<K, E>>, id: K)
    ensures var sessions := After(trace, MAX_TRANSCRIPT_SESSIONS, TRANSCRIPT_RING_MAX);
      |sessions| <= 400 && (Get(sessions, id).Some? ==> |Get(sessions, id).value.entries| <= 4000)
    ensures var agents := After(trace, MAX_AGENT_RINGS, TRANSCRIPT_RING_MAX);
      |agents| <= 800 && (Get(agents, id).Some? ==> |Get(agents, id).value.entries| <= 4000)
  {
    RingsAreBounded(trace, MAX_TRANSCRIPT_SESSIONS, TRANSCRIPT_RING_MAX, id);
    RingsAreBounded(trace, MAX_AGENT_RINGS, TRANSCRIPT_RING_MAX, id);
  }

  /** The server's two ring maps, updated by the message handler. */
  class RingStore<K(==), E> {
    const maxRings: nat
    var rings: OMap<K, Ring<E>>

    constructor (maxRings: nat)
      requires maxRings > 0
      ensures this.maxRings == maxRings && rings == []
    {
      this.maxRings := maxRings;
      rings := [];
    }

    /** Deletes the first key until the map is within its bound. */
    method EvictOldest()
      modifies this
      ensures rings == Newest(old(rings), maxRings)
    {
      while |rings| > maxRings
        invariant |rings| <= |old(rings)|
        invariant rings == old(rings)[|old(rings)| - |rings|..]
        invariant |rings| >= Min(maxRings, |old(rings)|)
      {
        rings := rings[1..];
      }
    }

    /** The loop over one event's entries. */
    method Pushed(held: seq<E>, more: seq<E>) returns (entries: seq<E>)
      ensures entries == held + more
    {
      entries := held;
      for i := 0 to |more|
        invariant entries == held + more[..i]
      {
        entries := entries + [more[i]];
      }
      assert more[..|more|] == more;
    }

    /** One accepted event: push the entries, cap the ring, move it to the back. */
    method Append(w: Write<K, E>)
      modifies this
      ensures rings == Record(old(rings), w, maxRings, TRANSCRIPT_RING_MAX)
    {
      var found := Get(rings, w.id);
      var ring := if found.Some? then found.value else Ring([], w.machineId);
      var entries := Pushed(ring.entries, w.entries);
      if |entries| > TRANSCRIPT_RING_MAX {
        entries := entries[|entries| - TRANSCRIPT_RING_MAX..];
      }
      rings := Delete(rings, w.id);
      rings := rings + [(w.id, ring.(entries := entries))];
      EvictOldest();
    }
  }
}
