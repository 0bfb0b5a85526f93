/** The per-client command queue of packages/cli/src/hq-server.ts: `POST /api/command`
    pushes, `client.command_poll` drains by cursor, and the frame parser of
    packages/core/src/hq/protocol.ts stands between the client and the cursor. */
module HqCommands {
  import opened Prelude

  const QUEUE_MAX: nat := 200
  const DEFAULT_LIMIT: int := 25
  const MIN_KEPT: nat := 100

  // command ids are UUIDs: fresh values with equality and nothing else
  type CommandId = int

  datatype Command = Command(commandId: CommandId, kind: string, payload: string)

  /** A poll as the client writes it. */
  datatype PollFrame = PollFrame(
    clientId: string,
    projectId: string,
    afterCommandId: Option<CommandId>,
    limit: Option<int>)

  /** `parseHqFrame` rebuilds the poll frame from its client and project ids only. */
  function ParsePoll(frame: PollFrame): PollFrame {
    PollFrame(frame.clientId, frame.projectId, None, None)
  }

  function Enqueued(queue: seq<Command>, c: Command): seq<Command> {
    Newest(queue + [c], QUEUE_MAX)
  }

  function IndexOfId(queue: seq<Command>, id: CommandId): (at: Option<nat>)
    ensures at.Some? ==> at.value < |queue| && queue[at.value].commandId == id
    ensures at == None <==> forall i :: 0 <= i < |queue| ==> queue[i].commandId != id
  {
    if queue == [] then None
    else if queue[0].commandId == id then Some(0)
    else match IndexOfId(queue[1..], id) case None => None case Some(i) => Some(i + 1)
  }

  /** What one poll is answered with. */
  function Batch(queue: seq<Command>, after: Option<CommandId>): seq<Command> {
    if after == None then queue
    else match IndexOfId(queue, after.value)
      case Some(i) => queue[i + 1..]
      case None => queue
  }

  function Kept(limit: Option<int>): (n: nat)
    ensures n >= MIN_KEPT
  {
    Max((if limit.Some? then limit.value else DEFAULT_LIMIT) * 4, MIN_KEPT)
  }

  /** The queue a registered client owns, as the handlers update it. */
  class CommandQueue {
    var queue: seq<Command>

    constructor ()
      ensures queue == []
    {
      queue := [];
    }

    /** The `splice` both handlers use to drop the oldest commands. */
    method TrimTo(n: nat)
      modifies this
      ensures queue == Newest(old(queue), n)
    {
      if |queue| > n {
        queue := queue[|queue| - n..];
      }
    }

    method Push(c: Command)
      modifies this
      ensures queue == Enqueued(old(queue), c)
    {
      queue := queue + [c];
      TrimTo(QUEUE_MAX);
    }

    /** `sent` is None when there is nothing to send or the socket is not open; the
        queue is trimmed either way. */
    method Poll(frame: PollFrame, open: bool) returns (sent: Option<seq<Command>>)
      modifies this
      ensures queue == Newest(old(queue), Kept(frame.limit))
      ensures var batch := Batch(old(queue), frame.afterCommandId);
        sent == if batch != [] && open then Some(batch) else None
    {
      var toSend;
      if frame.afterCommandId == None {
        toSend := queue;
      } else {
        var idx := IndexOfId(queue, frame.afterCommandId.value);
        toSend := if idx.Some? then queue[idx.value + 1..] else queue;
      }
      sent := None;
      if |toSend| > 0 && open {
        sent := Some(toSend);
      }
      var limit := if frame.limit.Some? then frame.limit.value else DEFAULT_LIMIT;
      TrimTo(Max(limit * 4, MIN_KEPT));
    }
  }

  // ---------------------------------------------------- one client's whole session

  /** What can happen to one client's registration: a command posted to it, a poll on
      its open socket, a poll read while the socket is closing, and a second hello,
      which registers the client anew with an empty queue. */
  datatype Op = Enqueue(c: Command) | Poll(limit: Option<int>) | ClosedPoll(limit: Option<int>) | Rehello

  /** The queue together with the client at its other end, which remembers the last
      id it received and polls with it. */
  datatype Link = Link(queue: seq<Command>, cursor: Option<CommandId>, received: seq<Command>)

  function LastId(batch: seq<Command>, otherwise: Option<CommandId>): Option<CommandId> {
    if batch == [] then otherwise else Some(batch[|batch| - 1].commandId)
  }

  function Step(l: Link, op: Op): Link {
    match op
    case Enqueue(c) => l.(queue := Enqueued(l.queue, c))
    case Poll(limit) =>
      var batch := Batch(l.queue, l.cursor);
      Link(Newest(l.queue, Kept(limit)), LastId(batch, l.cursor), l.received + batch)
    case ClosedPoll(limit) => l.(queue := Newest(l.queue, Kept(limit)))
    case Rehello => l.(queue := [])
  }

  /** What delivery should look like: the log of everything enqueued, how much of it
      existed at the last answered poll, the log positions handed over so far, where
      the last batch ended, and how much of the log is gone whether or not it was
      handed over: what a closing socket's poll trimmed away and what a hello dropped.
      Each answered poll hands over everything new since the last one, less what is
      gone and what lies more than 200 commands back. */
  datatype Ledger = Ledger(log: seq<Command>, polled: nat, handed: seq<nat>, at: nat, gone: nat, missed: bool)

  const NOTHING_BOOKED: Ledger := Ledger([], 0, [], 0, 0, false)

  /** The first position an answered poll hands over now. */
  function From(b: Ledger): nat { Max(Max(b.polled, |b.log| - QUEUE_MAX), b.gone) }

  /** A poll now comes too late for something: more than 200 commands wait, or some
      that do are gone. */
  predicate TooLate(b: Ledger) { |b.log| - b.polled > QUEUE_MAX || b.gone > b.polled }

  function Book(b: Ledger, op: Op): Ledger {
    match op
    case Enqueue(c) => b.(log := b.log + [c])
    case Poll(_) =>
      b.(polled := |b.log|, handed := b.handed + Range(From(b), |b.log|),
         at := if From(b) < |b.log| then |b.log| else b.at, missed := b.missed || TooLate(b))
    case ClosedPoll(limit) => b.(gone := Max(b.gone, |b.log| - Kept(limit)))
    case Rehello => b.(gone := |b.log|)
  }

  function Range(from: nat, till: nat): (r: seq<nat>)
    ensures |r| == Max(0, till - from)
    decreases till
  {
    if from >= till then [] else Range(from, till - 1) + [till - 1]
  }

  /** The commands at the given log positions. */
  function Pick(log: seq<Command>, at: seq<nat>): seq<Command> {
    if at == [] then []
    else Pick(log, at[..|at| - 1]) + if at[|at| - 1] < |log| then [log[at[|at| - 1]]] else []
  }

  function IdAt(log: seq<Command>, i: nat): CommandId
    requires i < |log|
  {
    log[i].commandId
  }

  /** Ids are fresh: distinct from one another and from the cursor a reconnecting
      client may still hold. */
  ghost predicate FreshIds(log: seq<Command>, cursor: Option<CommandId>) {
    && (forall i, j :: 0 <= i < j < |log| ==> IdAt(log, i) != IdAt(log, j))
    && (forall i :: 0 <= i < |log| ==> cursor != Some(IdAt(log, i)))
  }

  /** Strictly increasing, and below `below` throughout. */
  ghost predicate Increasing(s: seq<nat>, below: nat) {
    s == [] || (s[|s| - 1] < below && Increasing(s[..|s| - 1], s[|s| - 1]))
  }

  lemma {:induction false} IncreasingMeans(s: seq<nat>, below: nat)
    requires Increasing(s, below)
    ensures forall i :: 0 <= i < |s| ==> s[i] < below
    ensures forall i, j :: 0 <= i < j < |s| ==> s[i] < s[j]
  {
    if s == [] {
    } else {
      IncreasingMeans(s[..|s| - 1], s[|s| - 1]);
    }
  }

  lemma {:induction false} IncreasingThenRange(s: seq<nat>, below: nat, from: nat, till: nat)
    requires Increasing(s, below) && below <= from <= till
    ensures Increasing(s + Range(from, till), till)
    decreases till
  {
    if from == till {
      assert s + Range(from, till) == s;
    } else {
      IncreasingThenRange(s, below, from, till - 1);
      var all, r := s + Range(from, till), Range(from, till - 1);
      assert all == s + r + [till - 1];
      assert all[..|all| - 1] == s + r;
    }
  }

  ghost predicate BookOk(b: Ledger) {
    && Increasing(b.handed, b.polled)
    && (b.handed == Range(0, b.polled) <==> !b.missed)
  }

  /** How far the queue reaches back when the log is `n` long: what is gone is
      trimmed, nothing is trimmed that was not handed over, gone or overflowed, and a
      batch that ended before the last poll has nothing left in the queue. */
  predicate Level(b: Ledger, trimmed: nat) {
    && b.at <= b.polled <= |b.log|
    && trimmed <= |b.log| <= trimmed + QUEUE_MAX
    && b.gone <= trimmed <= From(b)
    && (b.at == b.polled || b.polled <= trimmed)
  }

  /** The link agrees with the ledger: the queue is the log less its first `trimmed`
      commands, the cursor is the last command handed over, and the client holds what
      the ledger says. */
  ghost predicate Agrees(l: Link, b: Ledger, trimmed: nat, start: Option<CommandId>) {
    && BookOk(b)
    && Level(b, trimmed)
    && l.queue == b.log[trimmed..]
    && l.cursor == CursorAfter(b.log, b.at, start)
    && l.received == Pick(b.log, b.handed)
  }

  function CursorAfter(log: seq<Command>, at: nat, start: Option<CommandId>): Option<CommandId>
    requires at <= |log|
  {
    if at == 0 then start else Some(log[at - 1].commandId)
  }

  lemma NewestOfSuffix(log: seq<Command>, cut: nat, n: nat)
    requires cut <= |log|
    ensures Newest(log[cut..], n) == log[Max(cut, |log| - n)..]
  {
  }

  lemma {:induction false} IncreasingBelow(s: seq<nat>, n: nat)
    requires Increasing(s, n)
    ensures |s| <= n && (|s| == n ==> s == Range(0, n))
  {
    if s == [] {
    } else {
      IncreasingBelow(s[..|s| - 1], s[|s| - 1]);
    }
  }

  lemma {:induction false} RangeJoin(d: nat, till: nat)
    requires d <= till
    ensures Range(0, d) + Range(d, till) == Range(0, till)
    decreases till
  {
    if d == till {
      assert Range(0, d) + [] == Range(0, d);
    } else {
      RangeJoin(d, till - 1);
      assert Range(0, d) + (Range(d, till - 1) + [till - 1]) == Range(0, d) + Range(d, till - 1) + [till - 1];
    }
  }

  lemma RangeAppend(d: nat, from: nat, till: nat, handed: seq<nat>)
    requires Increasing(handed, d) && d <= from <= till
    ensures handed + Range(from, till) == Range(0, till) <==> handed == Range(0, d) && from == d
  {
    IncreasingBelow(handed, d);
    RangeJoin(d, till);
    if handed + Range(from, till) == Range(0, till) {
      assert |handed| + (till - from) == till;
    }
  }

  /** A poll books the full range exactly when nothing was missed before or now. */
  lemma BookKeepsOk(b: Ledger, op: Op)
    requires BookOk(b) && b.polled <= |b.log| && b.gone <= |b.log|
    ensures BookOk(Book(b, op))
  {
    if op.Poll? {
      IncreasingThenRange(b.handed, b.polled, From(b), |b.log|);
      RangeAppend(b.polled, From(b), |b.log|, b.handed);
    }
  }

  lemma {:induction false} IndexOfSelf(queue: seq<Command>, i: nat)
    requires i < |queue| && forall j :: 0 <= j < i ==> queue[j].commandId != queue[i].commandId
    ensures IndexOfId(queue, queue[i].commandId) == Some(i)
  {
    if i == 0 {
    } else {
      assert forall j :: 0 <= j < |queue| - 1 ==> queue[1..][j] == queue[j + 1];
      IndexOfSelf(queue[1..], i - 1);
    }
  }

  lemma CursorFound(log: seq<Command>, cut: nat, d: nat, start: Option<CommandId>)
    requires cut < d <= |log| && FreshIds(log, start)
    ensures IndexOfId(log[cut..], log[d - 1].commandId) == Some(d - 1 - cut)
  {
    var queue := log[cut..];
    assert queue[d - 1 - cut] == log[d - 1];
    forall j | 0 <= j < d - 1 - cut ensures queue[j].commandId != queue[d - 1 - cut].commandId {
      assert queue[j] == log[cut + j] && IdAt(log, cut + j) != IdAt(log, d - 1);
    }
    IndexOfSelf(queue, d - 1 - cut);
  }

  lemma CursorTrimmed(log: seq<Command>, cut: nat, d: nat, start: Option<CommandId>)
    requires d <= cut <= |log| && FreshIds(log, start)
    ensures var after := CursorAfter(log, d, start); after == None || IndexOfId(log[cut..], after.value) == None
  {
    var queue, after := log[cut..], CursorAfter(log, d, start);
    forall i | 0 <= i < |queue| ensures after != Some(queue[i].commandId) {
      assert queue[i] == log[cut + i];
      assert start != Some(IdAt(log, cut + i));
      if d > 0 { assert IdAt(log, d - 1) != IdAt(log, cut + i); }
    }
  }

  lemma BatchAfterFound(log: seq<Command>, cut: nat, d: nat, id: CommandId)
    requires cut < d <= |log| && IndexOfId(log[cut..], id) == Some(d - 1 - cut)
    ensures Batch(log[cut..], Some(id)) == log[d..]
  {
    assert log[cut..][d - cut..] == log[d..];
  }

  /** Polling a suffix of the log by cursor: resume after the cursor if it is still
      there, else take the whole suffix. */
  lemma BatchOfSuffix(log: seq<Command>, cut: nat, d: nat, start: Option<CommandId>)
    requires cut <= |log| && d <= |log| && FreshIds(log, start)
    ensures Batch(log[cut..], CursorAfter(log, d, start)) == log[Max(d, cut)..]
  {
    if d > cut {
      CursorFound(log, cut, d, start);
      BatchAfterFound(log, cut, d, log[d - 1].commandId);
    } else {
      CursorTrimmed(log, cut, d, start);
    }
  }

  /** The cursor a client holds after a batch that reaches the end of the log. */
  lemma CursorMoves(log: seq<Command>, from: nat, d: nat, start: Option<CommandId>)
    requires d <= from <= |log|
    ensures LastId(log[from..], CursorAfter(log, d, start)) == CursorAfter(log, if from < |log| then |log| else d, start)
  {
  }

  lemma {:induction false} PickConcat(log: seq<Command>, a: seq<nat>, b: seq<nat>)
    ensures Pick(log, a + b) == Pick(log, a) + Pick(log, b)
  {
    if b == [] {
      assert a + b == a;
    } else {
      PickConcat(log, a, b[..|b| - 1]);
      assert (a + b)[..|a + b| - 1] == a + b[..|b| - 1];
    }
  }

  lemma PickLast(log: seq<Command>, at: seq<nat>, i: nat)
    requires i < |log|
    ensures Pick(log, at + [i]) == Pick(log, at) + [log[i]]
  {
    assert (at + [i])[..|at|] == at;
  }

  lemma LastOfRange(log: seq<Command>, from: nat, till: nat)
    requires from < till <= |log|
    ensures log[from..till] == log[from..till - 1] + [log[till - 1]]
  {
  }

  lemma PickOneMore(log: seq<Command>, from: nat, till: nat)
    requires from < till <= |log| && Pick(log, Range(from, till - 1)) == log[from..till - 1]
    ensures Pick(log, Range(from, till)) == log[from..till]
  {
    PickLast(log, Range(from, till - 1), till - 1);
    LastOfRange(log, from, till);
  }

  lemma {:induction false} PickRange(log: seq<Command>, from: nat, till: nat)
    requires from <= till <= |log|
    ensures Pick(log, Range(from, till)) == log[from..till]
    decreases till
  {
    if from == till {
    } else {
      PickRange(log, from, till - 1);
      PickOneMore(log, from, till);
    }
  }

  lemma {:induction false} PickGrows(log: seq<Command>, c: Command, at: seq<nat>, below: nat)
    requires Increasing(at, below) && below <= |log|
    ensures Pick(log + [c], at) == Pick(log, at)
  {
    if at == [] {
    } else {
      PickGrows(log, c, at[..|at| - 1], at[|at| - 1]);
    }
  }

  lemma {:induction false} PickMeans(log: seq<Command>, at: seq<nat>, below: nat)
    requires Increasing(at, below) && below <= |log|
    ensures |Pick(log, at)| == |at| && forall i :: 0 <= i < |at| ==> at[i] < |log| && Pick(log, at)[i] == log[at[i]]
  {
    if at == [] {
    } else {
      PickMeans(log, at[..|at| - 1], at[|at| - 1]);
    }
  }

  lemma AnswerOfSuffix(l: Link, log: seq<Command>, cut: nat, d: nat, start: Option<CommandId>, limit: Option<int>)
    requires cut <= |log| && d <= |log| && Batch(l.queue, l.cursor) == log[Max(d, cut)..]
    requires l.queue == log[cut..] && l.cursor == CursorAfter(log, d, start)
    ensures Step(l, Poll(limit)) == Link(log[Max(cut, |log| - Kept(limit))..],
                                         CursorAfter(log, if Max(d, cut) < |log| then |log| else d, start),
                                         l.received + log[Max(d, cut)..])
  {
    CursorMoves(log, Max(d, cut), d, start);
    NewestOfSuffix(log, cut, Kept(limit));
  }

  /** A poll of a log suffix, in the log's own terms. */
  lemma PollOfSuffix(l: Link, log: seq<Command>, cut: nat, d: nat, start: Option<CommandId>, limit: Option<int>)
    requires cut <= |log| && d <= |log| && FreshIds(log, start)
    requires l.queue == log[cut..] && l.cursor == CursorAfter(log, d, start)
    ensures Step(l, Poll(limit)) == Link(log[Max(cut, |log| - Kept(limit))..],
                                         CursorAfter(log, if Max(d, cut) < |log| then |log| else d, start),
                                         l.received + log[Max(d, cut)..])
  {
    BatchOfSuffix(log, cut, d, start);
    AnswerOfSuffix(l, log, cut, d, start, limit);
  }

  /** Where the queue begins after a step. */
  function Trimmed(b: Ledger, trimmed: nat, op: Op): nat {
    match op
    case Enqueue(_) => Max(trimmed, |b.log| + 1 - QUEUE_MAX)
    case Poll(limit) => Max(trimmed, |b.log| - Kept(limit))
    case ClosedPoll(limit) => Max(trimmed, |b.log| - Kept(limit))
    case Rehello => |b.log|
  }

  lemma LevelStep(b: Ledger, trimmed: nat, op: Op)
    requires Level(b, trimmed)
    ensures Level(Book(b, op), Trimmed(b, trimmed, op))
    ensures From(b) == Max(b.at, trimmed)
  {
  }

  lemma PollDelivers(l: Link, b: Ledger, trimmed: nat, start: Option<CommandId>, limit: Option<int>)
    requires Level(b, trimmed) && FreshIds(b.log, start) && l.queue == b.log[trimmed..]
    requires l.cursor == CursorAfter(b.log, b.at, start) && l.received == Pick(b.log, b.handed)
    ensures Step(l, Poll(limit)) == Link(b.log[Trimmed(b, trimmed, Poll(limit))..],
                                         CursorAfter(b.log, if From(b) < |b.log| then |b.log| else b.at, start),
                                         Pick(b.log, b.handed) + b.log[From(b)..])
  {
    LevelStep(b, trimmed, Poll(limit));
    PollOfSuffix(l, b.log, trimmed, b.at, start, limit);
  }

  lemma PollAgrees(l: Link, b: Ledger, trimmed: nat, start: Option<CommandId>, limit: Option<int>)
    requires Agrees(l, b, trimmed, start) && FreshIds(b.log, start)
    ensures Agrees(Step(l, Poll(limit)), Book(b, Poll(limit)), Trimmed(b, trimmed, Poll(limit)), start)
  {
    LevelStep(b, trimmed, Poll(limit));
    PollDelivers(l, b, trimmed, start, limit);
    HandedOver(b, limit);
    BookKeepsOk(b, Poll(limit));
  }

  lemma PickThrough(log: seq<Command>, handed: seq<nat>, from: nat)
    requires from <= |log|
    ensures Pick(log, handed + Range(from, |log|)) == Pick(log, handed) + log[from..]
  {
    PickConcat(log, handed, Range(from, |log|));
    PickRange(log, from, |log|);
    assert log[from..|log|] == log[from..];
  }

  /** What the client holds after a poll is what the ledger books. */
  lemma HandedOver(b: Ledger, limit: Option<int>)
    requires From(b) <= |b.log|
    ensures Pick(b.log, Book(b, Poll(limit)).handed) == Pick(b.log, b.handed) + b.log[From(b)..]
  {
    PickThrough(b.log, b.handed, From(b));
  }

  lemma ClosedPollAgrees(l: Link, b: Ledger, trimmed: nat, start: Option<CommandId>, limit: Option<int>)
    requires Agrees(l, b, trimmed, start)
    ensures Agrees(Step(l, ClosedPoll(limit)), Book(b, ClosedPoll(limit)), Trimmed(b, trimmed, ClosedPoll(limit)), start)
  {
    LevelStep(b, trimmed, ClosedPoll(limit));
    NewestOfSuffix(b.log, trimmed, Kept(limit));
  }

  lemma NewestOfPushed(log: seq<Command>, cut: nat, c: Command)
    requires cut <= |log|
    ensures Enqueued(log[cut..], c) == (log + [c])[Max(cut, |log| + 1 - QUEUE_MAX)..]
  {
    assert log[cut..] + [c] == (log + [c])[cut..];
    NewestOfSuffix(log + [c], cut, QUEUE_MAX);
  }

  lemma PushOnSuffix(l: Link, log: seq<Command>, cut: nat, d: nat, start: Option<CommandId>, c: Command)
    requires cut <= |log| && d <= |log|
    requires l.queue == log[cut..] && l.cursor == CursorAfter(log, d, start)
    ensures Step(l, Enqueue(c)) == Link((log + [c])[Max(cut, |log| + 1 - QUEUE_MAX)..],
                                        CursorAfter(log + [c], d, start), l.received)
  {
    NewestOfPushed(log, cut, c);
  }

  lemma EnqueueAgrees(l: Link, b: Ledger, trimmed: nat, start: Option<CommandId>, c: Command)
    requires Agrees(l, b, trimmed, start)
    ensures Agrees(Step(l, Enqueue(c)), Book(b, Enqueue(c)), Trimmed(b, trimmed, Enqueue(c)), start)
  {
    LevelStep(b, trimmed, Enqueue(c));
    PickGrows(b.log, c, b.handed, b.polled);
    PushOnSuffix(l, b.log, trimmed, b.at, start, c);
    BookKeepsOk(b, Enqueue(c));
  }

  function Run(l: Link, ops: seq<Op>): Link
    decreases |ops|
  {
    if ops == [] then l else Run(Step(l, ops[0]), ops[1..])
  }

  function BookAll(b: Ledger, ops: seq<Op>): (r: Ledger)
    ensures b.log <= r.log
    decreases |ops|
  {
    if ops == [] then b else BookAll(Book(b, ops[0]), ops[1..])
  }

  lemma FreshPrefix(log: seq<Command>, more: seq<Command>, start: Option<CommandId>)
    requires log <= more && FreshIds(more, start)
    ensures FreshIds(log, start)
  {
    assert forall i :: 0 <= i < |log| ==> IdAt(log, i) == IdAt(more, i);
  }

  lemma {:induction false} RunAgrees(l: Link, b: Ledger, trimmed: nat, start: Option<CommandId>, ops: seq<Op>)
    returns (end: nat)
    requires Agrees(l, b, trimmed, start) && FreshIds(BookAll(b, ops).log, start)
    ensures Agrees(Run(l, ops), BookAll(b, ops), end, start)
    decreases |ops|
  {
    end := trimmed;
    if ops == [] {
    } else {
      FreshPrefix(b.log, BookAll(b, ops).log, start);
      match ops[0] {
        case Enqueue(c) => EnqueueAgrees(l, b, trimmed, start, c);
        case Poll(limit) => PollAgrees(l, b, trimmed, start, limit);
        case ClosedPoll(limit) => ClosedPollAgrees(l, b, trimmed, start, limit);
        case Rehello => LevelStep(b, trimmed, Rehello);
      }
      end := RunAgrees(Step(l, ops[0]), Book(b, ops[0]), Trimmed(b, trimmed, ops[0]), start, ops[1..]);
    }
  }

  /** Without closing sockets and hellos nothing is ever gone, so a poll comes too late
      exactly when it finds more than 200 commands waiting. */
  lemma {:induction false} NothingGone(b: Ledger, ops: seq<Op>)
    requires b.gone == 0 && forall op :: op in ops ==> op.Enqueue? || op.Poll?
    ensures var end := BookAll(b, ops); TooLate(end) <==> |end.log| - end.polled > QUEUE_MAX
    decreases |ops|
  {
    if ops == [] {
    } else {
      assert ops[0] in ops;
      NothingGone(Book(b, ops[0]), ops[1..]);
    }
  }

  lemma PickAll(log: seq<Command>, handed: seq<nat>, polled: nat)
    requires Increasing(handed, polled) && polled <= |log|
    ensures Pick(log, handed) == log[..polled] <==> handed == Range(0, polled)
  {
    IncreasingBelow(handed, polled);
    PickMeans(log, handed, polled);
    PickRange(log, 0, polled);
  }

  /** Delivery over a whole session, for any mix of enqueues, polls, polls on a closing
      socket and hellos, any limits, and any stale cursor a reconnecting client starts
      with: the client holds the log at strictly increasing positions, so it gets
      commands in order and never twice; and it holds all of the log up to its last
      answered poll exactly when no answered poll came too late. */
  lemma Delivery(start: Option<CommandId>, ops: seq<Op>, end: Link, b: Ledger)
    requires end == Run(Link([], start, []), ops)
    requires b == BookAll(NOTHING_BOOKED, ops) && FreshIds(b.log, start)
    ensures b.polled <= |b.log| && |end.received| == |b.handed|
    ensures forall i :: 0 <= i < |b.handed| ==> b.handed[i] < b.polled && end.received[i] == b.log[b.handed[i]]
    ensures forall i, j :: 0 <= i < j < |b.handed| ==> b.handed[i] < b.handed[j]
    ensures end.received == b.log[..b.polled] <==> !b.missed
  {
    var trimmed := RunAgrees(Link([], start, []), NOTHING_BOOKED, 0, start, ops);
    IncreasingMeans(b.handed, b.polled);
    PickMeans(b.log, b.handed, b.polled);
    PickAll(b.log, b.handed, b.polled);
  }

  // -------------------------------------------------------- through the parser

  /** Enqueues between two polls. */
  function EnqueueAll(queue: seq<Command>, cs: seq<Command>): seq<Command> {
    if cs == [] then queue else Enqueued(EnqueueAll(queue, cs[..|cs| - 1]), cs[|cs| - 1])
  }

  lemma {:induction false} EnqueueAllIsNewest(queue: seq<Command>, cs: seq<Command>)
    requires |queue| <= QUEUE_MAX
    ensures EnqueueAll(queue, cs) == Newest(queue + cs, QUEUE_MAX)
  {
    if cs == [] {
      assert queue + cs == queue;
    } else {
      EnqueueAllIsNewest(queue, cs[..|cs| - 1]);
      NewestOfAppend(queue + cs[..|cs| - 1], [cs[|cs| - 1]], QUEUE_MAX);
      assert queue + cs[..|cs| - 1] + [cs[|cs| - 1]] == queue + cs;
    }
  }

  /** Because the parser drops the cursor, whatever frame the client sends, the
      second of two consecutive polls repeats a command of the first exactly when
      fewer than 200 commands were enqueued in between. */
  lemma ParsedPollsRepeat(queue: seq<Command>, first: PollFrame, cs: seq<Command>, second: PollFrame)
    requires 0 < |queue| <= QUEUE_MAX && FreshIds(queue + cs, None)
    ensures var sent := Batch(queue, ParsePoll(first).afterCommandId);
      var later := EnqueueAll(Newest(queue, Kept(ParsePoll(first).limit)), cs);
      var resent := Batch(later, ParsePoll(second).afterCommandId);
      (exists c :: c in sent && c in resent) <==> |cs| < QUEUE_MAX
  {
    var kept := Newest(queue, MIN_KEPT);
    EnqueueAllIsNewest(kept, cs);
    if |cs| < QUEUE_MAX {
      LastSurvives(kept, cs);
    } else {
      NothingSurvives(queue, kept, cs);
    }
  }

  lemma LastSurvives(kept: seq<Command>, cs: seq<Command>)
    requires 0 < |kept| && |cs| < QUEUE_MAX
    ensures kept[|kept| - 1] in Newest(kept + cs, QUEUE_MAX)
  {
    var resent := Newest(kept + cs, QUEUE_MAX);
    assert resent[|resent| - |cs| - 1] == kept[|kept| - 1];
  }

  lemma NothingSurvives(queue: seq<Command>, kept: seq<Command>, cs: seq<Command>)
    requires |cs| >= QUEUE_MAX && FreshIds(queue + cs, None)
    ensures forall c :: c in queue ==> c !in Newest(kept + cs, QUEUE_MAX)
  {
    assert Newest(kept + cs, QUEUE_MAX) == cs[|cs| - QUEUE_MAX..];
    forall i, j | 0 <= i < |queue| && 0 <= j < |cs| ensures queue[i] != cs[j] {
      assert IdAt(queue + cs, i) != IdAt(queue + cs, |queue| + j);
    }
  }

  /** Smallest instance: one command, two polls, delivered twice. */
  lemma ParsedPollsDeliverTwice(c: Command)
    ensures var queue := Enqueued([], c);
      var first := ParsePoll(PollFrame("cli", "proj", None, None));
      var second := ParsePoll(PollFrame("cli", "proj", Some(c.commandId), None));
      && Batch(queue, first.afterCommandId) == [c]
      && Batch(Newest(queue, Kept(first.limit)), second.afterCommandId) == [c]
  {
  }
}
