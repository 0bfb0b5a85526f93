/** What each event does to the connected clients of the HQ server, map by map, and what a
    snapshot shows of it. */
module HqTelemetry {
  import opened Prelude
  import opened OrderedMap
  import opened HqSnapshot
  import opened HqConservation
  import opened HqCommands
  import opened HqServer

  // -------------------------------------------------- what holds of every run

  /** Sessions are filed under their own ids, and no key of a client's maps occurs twice. */
  predicate MapsOk(c: Client) {
    Unique(c.sessions) && Unique(c.mailboxes) && Unique(c.fleets) && Filed(c.sessions)
  }

  predicate Filed(sessions: OMap<string, Session>) {
    sessions == [] || (sessions[0].0 == sessions[0].1.sessionId && Filed(sessions[1..]))
  }

  predicate AllMapsOk(clients: OMap<Socket, Connected>) {
    clients == [] || (MapsOk(clients[0].1.view) && AllMapsOk(clients[1..]))
  }

  lemma {:induction false} FiledPut(sessions: OMap<string, Session>, x: Session)
    requires Filed(sessions)
    ensures Filed(Put(sessions, x.sessionId, x))
  {
    if sessions == [] || sessions[0].0 == x.sessionId {
    } else {
      FiledPut(sessions[1..], x);
    }
  }

  lemma {:induction false} FiledDelete(sessions: OMap<string, Session>, id: string)
    requires Filed(sessions)
    ensures Filed(Delete(sessions, id))
  {
    if sessions == [] || sessions[0].0 == id {
    } else {
      FiledDelete(sessions[1..], id);
    }
  }

  lemma AdoptOk(c: Client, t: Telemetry)
    requires MapsOk(c)
    ensures Adopt(c, t).Some? ==> MapsOk(Adopt(c, t).value)
  {
    match t
    case MailboxSnapshot(Some(m)) => PutUnique(c.mailboxes, c.projectId + ":" + m.mailboxId, m);
    case SessionSnapshot(Some(x)) =>
      PutUnique(c.sessions, x.sessionId, x);
      FiledPut(c.sessions, x);
    case SessionEnded(Some(id)) =>
      DeleteGet(c.sessions, id, id);
      FiledDelete(c.sessions, id);
    case FleetSnapshot(Some(f)) => PutUnique(c.fleets, f.runId, f);
    case _ =>
  }

  lemma {:induction false} PutMapsOk(clients: OMap<Socket, Connected>, ws: Socket, c: Connected)
    requires AllMapsOk(clients) && MapsOk(c.view)
    ensures AllMapsOk(Put(clients, ws, c))
  {
    if clients == [] || clients[0].0 == ws {
    } else {
      PutMapsOk(clients[1..], ws, c);
    }
  }

  lemma {:induction false} GetMapsOk(clients: OMap<Socket, Connected>, ws: Socket)
    requires AllMapsOk(clients) && Get(clients, ws).Some?
    ensures MapsOk(Get(clients, ws).value.view)
  {
    if clients[0].0 == ws {
    } else {
      GetMapsOk(clients[1..], ws);
    }
  }

  lemma {:induction false} DeleteMapsOk(clients: OMap<Socket, Connected>, ws: Socket)
    requires AllMapsOk(clients)
    ensures AllMapsOk(Delete(clients, ws))
  {
    if clients == [] || clients[0].0 == ws {
    } else {
      DeleteMapsOk(clients[1..], ws);
    }
  }

  lemma {:induction false} MapsOkAppend(a: OMap<Socket, Connected>, b: OMap<Socket, Connected>)
    ensures AllMapsOk(a + b) <==> AllMapsOk(a) && AllMapsOk(b)
  {
    if a == [] {
      assert a + b == b;
    } else {
      assert (a + b)[1..] == a[1..] + b;
      MapsOkAppend(a[1..], b);
    }
  }

  lemma {:induction false} FreshMapsOk(clients: OMap<Socket, Connected>, cutoff: int)
    requires AllMapsOk(clients)
    ensures AllMapsOk(Fresh(clients, cutoff))
  {
    if clients == [] {
    } else {
      var init, last := clients[..|clients| - 1], [clients[|clients| - 1]];
      assert clients == init + last;
      MapsOkAppend(init, last);
      FreshMapsOk(init, cutoff);
      MapsOkAppend(Fresh(init, cutoff), last);
      assert Fresh(init, cutoff) + [] == Fresh(init, cutoff);
    }
  }

  lemma EventMapsOk(s: Server, ws: Socket, t: Telemetry, now: int)
    requires AllMapsOk(s.clients)
    ensures AllMapsOk(OnClientEvent(s, ws, t, now).clients)
  {
    if Get(s.clients, ws).Some? {
      var c := Get(s.clients, ws).value;
      GetMapsOk(s.clients, ws);
      AdoptOk(c.view, t);
      PutMapsOk(s.clients, ws, c.(lastSeenAt := now));
      if Adopt(c.view, t).Some? { PutMapsOk(s.clients, ws, c.(lastSeenAt := now, view := Adopt(c.view, t).value)); }
    }
  }

  lemma PollMapsOk(s: Server, e: Event)
    requires AllMapsOk(s.clients) && (e.CommandPoll? || e.CommandAck? || e.CommandPosted?)
    ensures AllMapsOk(React(s, e).clients)
  {
    match e
    case CommandPoll(ws, frame, now) =>
      if Get(s.clients, ws).Some? {
        var c := Get(s.clients, ws).value;
        GetMapsOk(s.clients, ws);
        PutMapsOk(s.clients, ws, c.(lastSeenAt := now, queue := Newest(c.queue, Kept(frame.limit))));
      }
    case CommandAck(ws, now) =>
      if Get(s.clients, ws).Some? {
        GetMapsOk(s.clients, ws);
        PutMapsOk(s.clients, ws, Get(s.clients, ws).value.(lastSeenAt := now));
      }
    case CommandPosted(clientId, c, valid) =>
      var ws := Target(s.clients, clientId);
      if ws.Some? && Get(s.clients, ws.value).Some? {
        var t := Get(s.clients, ws.value).value;
        GetMapsOk(s.clients, ws.value);
        PutMapsOk(s.clients, ws.value, t.(queue := Enqueued(t.queue, c)));
      }
  }

  lemma ReactMapsOk(s: Server, e: Event)
    requires AllMapsOk(s.clients)
    ensures AllMapsOk(React(s, e).clients)
  {
    match e
    case Hello(ws, p, now) => PutMapsOk(s.clients, ws, Connected(ViewOf(p), p.canReceive, now, []));
    case ClientEvent(ws, t, now) => EventMapsOk(s, ws, t, now);
    case CommandPoll(_, _, _) => PollMapsOk(s, e);
    case CommandAck(_, _) => PollMapsOk(s, e);
    case CommandPosted(_, _, _) => PollMapsOk(s, e);
    case ClientClosed(ws) => DeleteMapsOk(s.clients, ws);
    case Sweep(now) => FreshMapsOk(s.clients, now - CLIENT_TTL_MS);
    case _ =>
  }

  /** In every reachable state. */
  lemma {:induction false} RunMapsOk(events: seq<Event>)
    ensures AllMapsOk(ReactAll(BOOTED, events).clients)
  {
    if events == [] {
    } else {
      RunMapsOk(events[..|events| - 1]);
      ReactMapsOk(ReactAll(BOOTED, events[..|events| - 1]), events[|events| - 1]);
    }
  }

  // ------------------------------------------------------------ the telemetry

  /** Everything of the client but its three maps. */
  predicate SameIdentity(c: Connected, d: Connected) {
    && c.view.clientId == d.view.clientId && c.view.projectId == d.view.projectId && c.view.project == d.view.project
    && c.view.kind == d.view.kind && c.view.hostname == d.view.hostname && c.view.machineId == d.view.machineId
    && c.canReceive == d.canReceive && c.queue == d.queue
  }

  /** Besides the sender, nobody is touched; a broadcast is on its way if `told`. */
  ghost predicate OnlySender(s: Server, t: Server, ws: Socket, now: int, told: bool) {
    && Get(s.clients, ws).Some? && Get(t.clients, ws).Some?
    && SameIdentity(Get(s.clients, ws).value, Get(t.clients, ws).value)
    && Get(t.clients, ws).value.lastSeenAt == now
    && (forall other :: other != ws ==> Get(t.clients, other) == Get(s.clients, other))
    && |t.clients| == |s.clients|
    && (if told then t.dirty && t.timer else t.dirty == s.dirty && t.timer == s.timer)
  }

  lemma SenderRewritten(s: Server, ws: Socket, c: Connected)
    requires Unique(s.clients) && Get(s.clients, ws).Some?
    ensures var clients := Put(s.clients, ws, c);
      && Get(clients, ws) == Some(c) && |clients| == |s.clients|
      && forall other :: other != ws ==> Get(clients, other) == Get(s.clients, other)
  {
    PutGet(s.clients, ws, c, ws);
    PutUnique(s.clients, ws, c);
    HasGet(s.clients, ws);
    forall other | other != ws ensures Get(Put(s.clients, ws, c), other) == Get(s.clients, other) {
      PutGet(s.clients, ws, c, other);
    }
  }

  lemma Registered(events: seq<Event>, ws: Socket)
    ensures var s := ReactAll(BOOTED, events);
      && Unique(s.clients) && (Get(s.clients, ws).Some? ==> MapsOk(Get(s.clients, ws).value.view))
  {
    var s := ReactAll(BOOTED, events);
    ReactAllInv(BOOTED, events);
    RunMapsOk(events);
    if Get(s.clients, ws).Some? { GetMapsOk(s.clients, ws); }
  }

  /** An ended session is gone from its client, and every other stays. */
  lemma SessionEndedEffect(events: seq<Event>, ws: Socket, id: string, now: int, q: string)
    requires Get(ReactAll(BOOTED, events).clients, ws).Some?
    ensures var s := ReactAll(BOOTED, events); var t := React(s, ClientEvent(ws, SessionEnded(Some(id)), now));
      && OnlySender(s, t, ws, now, true)
      && var was, left := Get(s.clients, ws).value.view, Get(t.clients, ws).value.view;
      && Get(left.sessions, q) == (if q == id then None else Get(was.sessions, q))
      && left.mailboxes == was.mailboxes && left.fleets == was.fleets
  {
    var s := ReactAll(BOOTED, events);
    Registered(events, ws);
    var c := Get(s.clients, ws).value;
    DeleteGet(c.view.sessions, id, q);
    SenderRewritten(s, ws, c.(lastSeenAt := now, view := c.view.(sessions := Delete(c.view.sessions, id))));
  }

  /** A reported session is its client's under its id, and every other stays. */
  lemma SessionSnapshotEffect(events: seq<Event>, ws: Socket, x: Session, now: int, q: string)
    requires Get(ReactAll(BOOTED, events).clients, ws).Some?
    ensures var s := ReactAll(BOOTED, events); var t := React(s, ClientEvent(ws, SessionSnapshot(Some(x)), now));
      && OnlySender(s, t, ws, now, true)
      && var was, left := Get(s.clients, ws).value.view, Get(t.clients, ws).value.view;
      && Get(left.sessions, q) == (if q == x.sessionId then Some(x) else Get(was.sessions, q))
      && left.mailboxes == was.mailboxes && left.fleets == was.fleets
  {
    var s := ReactAll(BOOTED, events);
    Registered(events, ws);
    var c := Get(s.clients, ws).value;
    PutGet(c.view.sessions, x.sessionId, x, q);
    SenderRewritten(s, ws, c.(lastSeenAt := now, view := c.view.(sessions := Put(c.view.sessions, x.sessionId, x))));
  }

  /** A mailbox is its client's under the project and mailbox ids. */
  lemma MailboxSnapshotEffect(events: seq<Event>, ws: Socket, m: Mailbox, now: int, q: string)
    requires Get(ReactAll(BOOTED, events).clients, ws).Some?
    ensures var s := ReactAll(BOOTED, events); var t := React(s, ClientEvent(ws, MailboxSnapshot(Some(m)), now));
      && OnlySender(s, t, ws, now, true)
      && var was, left := Get(s.clients, ws).value.view, Get(t.clients, ws).value.view;
      && Get(left.mailboxes, q) == (if q == was.projectId + ":" + m.mailboxId then Some(m) else Get(was.mailboxes, q))
      && left.sessions == was.sessions && left.fleets == was.fleets
  {
    var s := ReactAll(BOOTED, events);
    Registered(events, ws);
    var c := Get(s.clients, ws).value;
    var key := c.view.projectId + ":" + m.mailboxId;
    PutGet(c.view.mailboxes, key, m, q);
    SenderRewritten(s, ws, c.(lastSeenAt := now, view := c.view.(mailboxes := Put(c.view.mailboxes, key, m))));
  }

  /** A fleet is its client's under its run id. */
  lemma FleetSnapshotEffect(events: seq<Event>, ws: Socket, f: Fleet, now: int, q: string)
    requires Get(ReactAll(BOOTED, events).clients, ws).Some?
    ensures var s := ReactAll(BOOTED, events); var t := React(s, ClientEvent(ws, FleetSnapshot(Some(f)), now));
      && OnlySender(s, t, ws, now, true)
      && var was, left := Get(s.clients, ws).value.view, Get(t.clients, ws).value.view;
      && Get(left.fleets, q) == (if q == f.runId then Some(f) else Get(was.fleets, q))
      && left.sessions == was.sessions && left.mailboxes == was.mailboxes
  {
    var s := ReactAll(BOOTED, events);
    Registered(events, ws);
    var c := Get(s.clients, ws).value;
    PutGet(c.view.fleets, f.runId, f, q);
    SenderRewritten(s, ws, c.(lastSeenAt := now, view := c.view.(fleets := Put(c.view.fleets, f.runId, f))));
  }

  predicate Malformed(t: Telemetry) {
    || t == MailboxSnapshot(None) || t == SessionSnapshot(None) || t == SessionEnded(None) || t == FleetSnapshot(None)
    || t == OtherEvent
  }

  /** Anything else only shows that the client is alive, and so does an acknowledgement. */
  lemma OtherEventEffect(events: seq<Event>, ws: Socket, e: Event, now: int)
    requires Get(ReactAll(BOOTED, events).clients, ws).Some?
    requires e == CommandAck(ws, now) || (e.ClientEvent? && Malformed(e.telemetry) && e == ClientEvent(ws, e.telemetry, now))
    ensures var s := ReactAll(BOOTED, events); var t := React(s, e);
      OnlySender(s, t, ws, now, false) && Get(t.clients, ws).value.view == Get(s.clients, ws).value.view
  {
    var s := ReactAll(BOOTED, events);
    Registered(events, ws);
    SenderRewritten(s, ws, Get(s.clients, ws).value.(lastSeenAt := now));
  }

  /** An event, a poll or an acknowledgement on a socket without a client does nothing. */
  lemma UnregisteredIsIgnored(s: Server, ws: Socket, e: Event)
    requires Get(s.clients, ws) == None
    requires (e.ClientEvent? && e.ws == ws) || (e.CommandPoll? && e.ws == ws) || (e.CommandAck? && e.ws == ws)
    ensures React(s, e) == s
  {
  }

  /** A hello makes the socket a client as it introduces itself, with nothing to its name. */
  lemma HelloEffect(events: seq<Event>, ws: Socket, p: HelloPayload, now: int, other: Socket)
    ensures var s := ReactAll(BOOTED, events); var t := React(s, Hello(ws, p, now));
      && t.dirty && t.timer && (other != ws ==> Get(t.clients, other) == Get(s.clients, other))
      && Get(t.clients, ws).Some?
      && var c := Get(t.clients, ws).value;
      && c.view.clientId == p.clientId && c.view.projectId == p.projectId && c.view.project == p.project
      && c.view.kind == p.kind && c.canReceive == p.canReceive && c.lastSeenAt == now
      && (p.hostname != None && p.hostname != Some("") ==> c.view.hostname == p.hostname)
      && (p.hostname == None || p.hostname == Some("") ==> c.view.hostname == None)
      && c.view.machineId == (if p.machineId != "" then p.machineId else p.project.machineId)
      && c.queue == [] && c.view.sessions == [] && c.view.mailboxes == [] && c.view.fleets == []
  {
    var s := ReactAll(BOOTED, events);
    PutGet(s.clients, ws, Connected(ViewOf(p), p.canReceive, now, []), ws);
    PutGet(s.clients, ws, Connected(ViewOf(p), p.canReceive, now, []), other);
  }

  /** A closed socket's client is gone, and nobody else. */
  lemma ClosedEffect(events: seq<Event>, ws: Socket, q: Socket)
    ensures var s := ReactAll(BOOTED, events); var t := React(s, ClientClosed(ws));
      && t.dirty && t.timer && t.evicted == s.evicted - {ws}
      && Get(t.clients, q) == (if q == ws then None else Get(s.clients, q))
  {
    Registered(events, ws);
    DeleteGet(ReactAll(BOOTED, events).clients, ws, q);
  }

  /** A server starts with nobody connected, and a shut-down one has no timer and no open
      browser left. */
  lemma StartsAndStops(s: Server)
    ensures BOOTED.clients == [] && BOOTED.browsers == [] && BOOTED.open == {} && BOOTED.evicted == {} && !BOOTED.timer
    ensures !React(s, Shutdown).timer && React(s, Shutdown).open == {} && React(s, Shutdown).clients == s.clients
  {
  }

  lemma {:induction false} FreshGet(clients: OMap<Socket, Connected>, cutoff: int, q: Socket)
    requires Unique(clients)
    ensures var found := Get(clients, q);
      && Get(Fresh(clients, cutoff), q) == (if found.Some? && found.value.lastSeenAt < cutoff then None else found)
      && (q in Stale(clients, cutoff) <==> found.Some? && found.value.lastSeenAt < cutoff)
  {
    if clients == [] {
    } else {
      var init, last := clients[..|clients| - 1], clients[|clients| - 1];
      assert clients == init + [last];
      UniqueInit(init, last);
      HasGet(init, last.0);
      FreshGet(init, cutoff, q);
      GetAppend(init, last, q);
      GetAppend(Fresh(init, cutoff), last, q);
      assert Fresh(init, cutoff) + [] == Fresh(init, cutoff);
    }
  }

  lemma {:induction false} GetAppend(m: OMap<Socket, Connected>, last: (Socket, Connected), q: Socket)
    ensures Get(m + [last], q) == if Get(m, q).Some? then Get(m, q) else if q == last.0 then Some(last.1) else None
  {
    if m == [] {
    } else {
      assert (m + [last])[1..] == m[1..] + [last];
      GetAppend(m[1..], last, q);
    }
  }

  /** The sweep drops exactly the clients not heard of for a minute, terminates their
      sockets, and tells the browsers unless nobody is left. */
  lemma SweepEffect(events: seq<Event>, now: int, q: Socket)
    ensures var s := ReactAll(BOOTED, events); var t := React(s, Sweep(now));
      var found := Get(s.clients, q);
      var silent := found.Some? && now - found.value.lastSeenAt > 60000;
      && Get(t.clients, q) == (if silent then None else found)
      && (q in t.evicted <==> q in s.evicted || silent)
      && (t.clients != [] ==> t.dirty && t.timer)
      && (t.clients == [] ==> t.dirty == s.dirty && t.timer == s.timer)
  {
    Registered(events, q);
    FreshGet(ReactAll(BOOTED, events).clients, now - CLIENT_TTL_MS, q);
  }

  // ---------------------------------------------------------- posted commands

  /** The first of the connected sockets that goes by the client id. */
  ghost predicate FirstNamed(clients: OMap<Socket, Connected>, clientId: string, i: nat) {
    && i < |clients| && clients[i].1.view.clientId == clientId
    && forall j :: 0 <= j < i ==> clients[j].1.view.clientId != clientId
  }

  lemma {:induction false} TargetIsFirst(clients: OMap<Socket, Connected>, clientId: string, i: nat)
    requires FirstNamed(clients, clientId, i)
    ensures Target(clients, clientId) == Some(clients[i].0)
  {
    if i == 0 {
    } else {
      assert forall j :: 0 <= j < i - 1 ==> clients[1..][j] == clients[j + 1];
      TargetIsFirst(clients[1..], clientId, i - 1);
    }
  }

  lemma {:induction false} NoTarget(clients: OMap<Socket, Connected>, clientId: string)
    requires forall i :: 0 <= i < |clients| ==> clients[i].1.view.clientId != clientId
    ensures Target(clients, clientId) == None
  {
    if clients == [] {
    } else {
      assert forall j :: 0 <= j < |clients| - 1 ==> clients[1..][j] == clients[j + 1];
      NoTarget(clients[1..], clientId);
    }
  }

  /** A posted command goes to the end of one client's queue, of which the newest 200 are
      kept: the first socket's that goes by the id. It must be a valid command and a client
      that can receive it; nobody else gets anything. */
  lemma PostedEffect(events: seq<Event>, clientId: string, c: Command, valid: bool, i: nat, q: Socket)
    requires FirstNamed(ReactAll(BOOTED, events).clients, clientId, i)
    ensures var s := ReactAll(BOOTED, events); var t := React(s, CommandPosted(clientId, c, valid));
      var (ws, target) := s.clients[i];
      && t.dirty == s.dirty && t.timer == s.timer
      && (!valid || !target.canReceive ==> t == s)
      && (valid && target.canReceive ==>
            && (q != ws ==> Get(t.clients, q) == Get(s.clients, q))
            && (|target.queue| < 200 ==> Get(t.clients, ws) == Some(target.(queue := target.queue + [c])))
            && (|target.queue| >= 200 ==>
                  Get(t.clients, ws) == Some(target.(queue := (target.queue + [c])[|target.queue| - 199..]))))
  {
    var s := ReactAll(BOOTED, events);
    var (ws, target) := s.clients[i];
    Registered(events, ws);
    TargetIsFirst(s.clients, clientId, i);
    GetAt(s.clients, i);
    PutGet(s.clients, ws, target.(queue := Enqueued(target.queue, c)), q);
    PutGet(s.clients, ws, target.(queue := Enqueued(target.queue, c)), ws);
  }

  lemma PostedToNobody(s: Server, clientId: string, c: Command, valid: bool)
    requires forall i :: 0 <= i < |s.clients| ==> s.clients[i].1.view.clientId != clientId
    ensures React(s, CommandPosted(clientId, c, valid)) == s
  {
    NoTarget(s.clients, clientId);
  }

  /** A poll keeps the newest of its client's commands, four times as many as it asked for
      and a hundred at least, and shows that the client is alive. */
  lemma PollEffect(events: seq<Event>, ws: Socket, frame: PollFrame, now: int, q: Socket)
    requires Get(ReactAll(BOOTED, events).clients, ws).Some?
    ensures var s := ReactAll(BOOTED, events); var t := React(s, CommandPoll(ws, frame, now));
      var was, left := Get(s.clients, ws).value, Get(t.clients, ws);
      var kept := Max(100, 4 * if frame.limit.Some? then frame.limit.value else 25);
      && t.dirty == s.dirty && t.timer == s.timer
      && (q != ws ==> Get(t.clients, q) == Get(s.clients, q))
      && left.Some? && left.value.view == was.view && left.value.canReceive == was.canReceive && left.value.lastSeenAt == now
      && left.value.queue == (if |was.queue| > kept then was.queue[|was.queue| - kept..] else was.queue)
  {
    var s := ReactAll(BOOTED, events);
    var c := Get(s.clients, ws).value;
    var after := c.(lastSeenAt := now, queue := Newest(c.queue, Kept(frame.limit)));
    PutGet(s.clients, ws, after, ws);
    PutGet(s.clients, ws, after, q);
  }

  // -------------------------------------------------- through the snapshot

  lemma {:induction false} FiledLatest(own: OMap<string, Session>, id: string)
    requires Filed(own) && Unique(own)
    ensures Latest(Held(own), id) == Get(own, id)
  {
    if own == [] {
    } else {
      FiledLatest(own[1..], id);
      HasGet(own[1..], own[0].0);
      assert Held(own) == [own[0].1] + Held(own[1..]);
      LatestAppend([own[0].1], Held(own[1..]), id);
      assert [own[0].1][..0] == [];
    }
  }

  /** Nobody but the socket has a session under the id. */
  ghost predicate OnlyReporter(clients: OMap<Socket, Connected>, ws: Socket, id: string) {
    forall i :: 0 <= i < |clients| && clients[i].0 != ws ==> Get(clients[i].1.view.sessions, id) == None
  }

  lemma {:induction false} ReportedBy(clients: OMap<Socket, Connected>, ws: Socket, id: string)
    requires AllMapsOk(clients) && Unique(clients) && OnlyReporter(clients, ws, id)
    ensures Latest(Reported(Views(clients)), id) ==
            match Get(clients, ws) case Some(c) => Get(c.view.sessions, id) case None => None
  {
    if clients == [] {
    } else {
      var init, last := clients[..|clients| - 1], clients[|clients| - 1];
      assert clients == init + [last];
      MapsOkAppend(init, [last]);
      UniqueInit(init, last);
      HasGet(init, last.0);
      ReportedBy(init, ws, id);
      GetAppend(init, last, ws);
      assert Views(clients)[..|init|] == Views(init);
      FiledLatest(last.1.view.sessions, id);
      LatestAppend(Reported(Views(init)), Held(last.1.view.sessions), id);
    }
  }

  /** A session reported by one client is live in the snapshot as it was last reported, and
      gone from it once it has ended. */
  lemma SessionLives(events: seq<Event>, ws: Socket, x: Session, now: int)
    requires Get(ReactAll(BOOTED, events).clients, ws).Some?
    requires OnlyReporter(ReactAll(BOOTED, events).clients, ws, x.sessionId)
    ensures var s := ReactAll(BOOTED, events);
      && Get(View(React(s, ClientEvent(ws, SessionSnapshot(Some(x)), now))).liveSessions, x.sessionId) == Some(x)
      && Get(View(React(s, ClientEvent(ws, SessionEnded(Some(x.sessionId)), now))).liveSessions, x.sessionId) == None
  {
    SessionSnapshotEffect(events, ws, x, now, x.sessionId);
    ShownBy(events, ClientEvent(ws, SessionSnapshot(Some(x)), now), ws, x.sessionId);
    SessionEndedEffect(events, ws, x.sessionId, now, x.sessionId);
    ShownBy(events, ClientEvent(ws, SessionEnded(Some(x.sessionId)), now), ws, x.sessionId);
  }

  lemma ShownBy(events: seq<Event>, e: Event, ws: Socket, id: string)
    requires var s := ReactAll(BOOTED, events); OnlyReporter(s.clients, ws, id)
    requires var s, t := ReactAll(BOOTED, events), React(ReactAll(BOOTED, events), e);
      Get(t.clients, ws).Some? && forall other :: other != ws ==> Get(t.clients, other) == Get(s.clients, other)
    ensures var t := React(ReactAll(BOOTED, events), e);
      Get(View(t).liveSessions, id) == Get(Get(t.clients, ws).value.view.sessions, id)
  {
    var s := ReactAll(BOOTED, events);
    var t := React(s, e);
    ReactAllInv(BOOTED, events);
    ReactInv(s, e);
    RunMapsOk(events);
    ReactMapsOk(s, e);
    forall i | 0 <= i < |t.clients| && t.clients[i].0 != ws ensures Get(t.clients[i].1.view.sessions, id) == None {
      GetAt(t.clients, i);
      HasGet(s.clients, t.clients[i].0);
      var j :| 0 <= j < |s.clients| && s.clients[j].0 == t.clients[i].0;
      GetAt(s.clients, j);
    }
    ReportedBy(t.clients, ws, id);
    LiveSessionsAreLatest(Views(t.clients), id);
  }
}
