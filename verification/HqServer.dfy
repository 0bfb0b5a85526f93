/** The HQ server's live state (packages/cli/src/hq-server.ts): connected clients, the
    browsers watching them, and the debounced, cached snapshot in between. Each event
    is one uninterrupted run of a socket, timer or request handler. */
module HqServer {
  import opened Prelude
  import opened OrderedMap
  import opened HqSnapshot
  import opened HqCommands

  const CLIENT_TTL_MS: int := 60000

  type Socket = int

  datatype HelloPayload = HelloPayload(
    clientId: string,
    machineId: string,
    kind: string,
    hostname: Option<string>,
    projectId: string,
    project: ProjectIdentity,
    canReceive: bool)

  datatype Connected = Connected(view: Client, canReceive: bool, lastSeenAt: int, queue: seq<Command>)

  /** What a `client.event` frame carries; a payload that fails validation is None. */
  datatype Telemetry =
    | MailboxSnapshot(mailbox: Option<Mailbox>)
    | SessionSnapshot(session: Option<Session>)
    | SessionEnded(sessionId: Option<string>)
    | FleetSnapshot(fleet: Option<Fleet>)
    | OtherEvent

  datatype Event =
    | Hello(ws: Socket, payload: HelloPayload, now: int)
    | ClientEvent(ws: Socket, telemetry: Telemetry, now: int)
    | CommandPoll(ws: Socket, frame: PollFrame, now: int)
    | CommandAck(ws: Socket, now: int)
    | CommandPosted(clientId: string, command: Command, valid: bool)
    | ClientClosed(ws: Socket)
    | BrowserConnected(ws: Socket)
    | BrowserClosing(ws: Socket)
    | BrowserClosed(ws: Socket)
    | FlushTimer
    | Sweep(now: int)
    | Shutdown

  /** `open` are the browser sockets whose readyState is OPEN, `received` the last
      snapshot sent on each, `evicted` the terminated client sockets whose close
      event has not fired yet. */
  datatype Server = Server(
    clients: OMap<Socket, Connected>,
    browsers: seq<Socket>,
    open: set<Socket>,
    received: map<Socket, Snapshot>,
    cached: Option<Snapshot>,
    dirty: bool,
    timer: bool,
    evicted: set<Socket>)

  const BOOTED: Server := Server([], [], {}, map[], None, true, false, {})

  function Views(clients: OMap<Socket, Connected>): (r: seq<Client>)
    ensures |r| == |clients| && forall i :: 0 <= i < |r| ==> r[i] == clients[i].1.view
  {
    seq(|clients|, i requires 0 <= i < |clients| => clients[i].1.view)
  }

  /** What a snapshot built now would say. */
  function View(s: Server): Snapshot { Snap(Views(s.clients)) }

  function Broadcast(s: Server): Server { s.(dirty := true, timer := true) }

  function Serialize(s: Server): Server {
    if !s.dirty && s.cached.Some? then s else s.(cached := Some(View(s)), dirty := false)
  }

  function ViewOf(p: HelloPayload): Client {
    Client(p.clientId, p.projectId, p.project, p.kind, Given(p.hostname),
           Truthy(p.machineId, p.project.machineId), [], [], [])
  }

  /** The client's maps after a valid snapshot event; None when nothing is adopted. */
  function Adopt(c: Client, t: Telemetry): Option<Client> {
    match t
    case MailboxSnapshot(Some(m)) => Some(c.(mailboxes := Put(c.mailboxes, c.projectId + ":" + m.mailboxId, m)))
    case SessionSnapshot(Some(x)) => Some(c.(sessions := Put(c.sessions, x.sessionId, x)))
    case SessionEnded(Some(id)) => Some(c.(sessions := Delete(c.sessions, id)))
    case FleetSnapshot(Some(f)) => Some(c.(fleets := Put(c.fleets, f.runId, f)))
    case _ => None
  }

  function Touch(s: Server, ws: Socket, now: int): Server {
    match Get(s.clients, ws)
    case None => s
    case Some(c) => s.(clients := Put(s.clients, ws, c.(lastSeenAt := now)))
  }

  function OnClientEvent(s: Server, ws: Socket, t: Telemetry, now: int): Server {
    match Get(s.clients, ws)
    case None => s
    case Some(c) =>
      match Adopt(c.view, t)
      case None => Touch(s, ws, now)
      case Some(view) => Broadcast(s.(clients := Put(s.clients, ws, c.(lastSeenAt := now, view := view))))
  }

  /** The socket a posted command goes to: the first with that client id. */
  function Target(clients: OMap<Socket, Connected>, clientId: string): Option<Socket> {
    if clients == [] then None
    else if clients[0].1.view.clientId == clientId then Some(clients[0].0)
    else Target(clients[1..], clientId)
  }

  function OnPost(s: Server, clientId: string, c: Command, valid: bool): Server {
    match Target(s.clients, clientId)
    case None => s
    case Some(ws) =>
      match Get(s.clients, ws)
      case Some(t) =>
        if t.canReceive && valid then s.(clients := Put(s.clients, ws, t.(queue := Enqueued(t.queue, c)))) else s
      case None => s
  }

  function Fresh(clients: OMap<Socket, Connected>, cutoff: int): OMap<Socket, Connected> {
    if clients == [] then []
    else Fresh(clients[..|clients| - 1], cutoff) +
         if clients[|clients| - 1].1.lastSeenAt < cutoff then [] else [clients[|clients| - 1]]
  }

  function Stale(clients: OMap<Socket, Connected>, cutoff: int): set<Socket> {
    if clients == [] then {}
    else Stale(clients[..|clients| - 1], cutoff) +
         if clients[|clients| - 1].1.lastSeenAt < cutoff then {clients[|clients| - 1].0} else {}
  }

  /** Evicted sockets are terminated at once; the broadcast is skipped when the sweep
      has emptied the server. */
  function OnSweep(s: Server, now: int): Server {
    var cutoff := now - CLIENT_TTL_MS;
    var swept := s.(clients := Fresh(s.clients, cutoff), evicted := s.evicted + Stale(s.clients, cutoff));
    if |swept.clients| > 0 then Broadcast(swept) else swept
  }

  function SendTo(received: map<Socket, Snapshot>, browsers: seq<Socket>, open: set<Socket>, data: Snapshot)
    : map<Socket, Snapshot>
  {
    if browsers == [] then received
    else
      var ws := browsers[|browsers| - 1];
      var sent := SendTo(received, browsers[..|browsers| - 1], open, data);
      if ws in open then sent[ws := data] else sent
  }

  function OnFlush(s: Server): Server {
    if !s.timer then s
    else
      var idle := s.(timer := false);
      if s.browsers == [] then idle
      else
        var ready := Serialize(idle);
        ready.(received := SendTo(ready.received, ready.browsers, ready.open, ready.cached.value))
  }

  function Remove(browsers: seq<Socket>, ws: Socket): seq<Socket> {
    if browsers == [] then []
    else if browsers[0] == ws then browsers[1..]
    else [browsers[0]] + Remove(browsers[1..], ws)
  }

  function OnBrowser(s: Server, ws: Socket): Server {
    var ready := Serialize(s.(browsers := if ws in s.browsers then s.browsers else s.browsers + [ws]));
    ready.(open := ready.open + {ws}, received := ready.received[ws := ready.cached.value])
  }

  function React(s: Server, e: Event): Server {
    match e
    case Hello(ws, p, now) =>
      Broadcast(s.(clients := Put(s.clients, ws, Connected(ViewOf(p), p.canReceive, now, []))))
    case ClientEvent(ws, t, now) => OnClientEvent(s, ws, t, now)
    case CommandPoll(ws, frame, now) =>
      (match Get(s.clients, ws)
       case None => s
       case Some(c) => s.(clients := Put(s.clients, ws,
                         c.(lastSeenAt := now, queue := Newest(c.queue, Kept(frame.limit))))))
    case CommandAck(ws, now) => Touch(s, ws, now)
    case CommandPosted(clientId, c, valid) => OnPost(s, clientId, c, valid)
    case ClientClosed(ws) =>
      Broadcast(s.(clients := Delete(s.clients, ws), evicted := s.evicted - {ws}))
    case BrowserConnected(ws) => OnBrowser(s, ws)
    case BrowserClosing(ws) => s.(open := s.open - {ws})
    case BrowserClosed(ws) => s.(browsers := Remove(s.browsers, ws), open := s.open - {ws})
    case FlushTimer => OnFlush(s)
    case Sweep(now) => OnSweep(s, now)
    case Shutdown => s.(timer := false, open := {})
  }

  function ReactAll(s: Server, events: seq<Event>): Server {
    if events == [] then s else React(ReactAll(s, events[..|events| - 1]), events[|events| - 1])
  }

  // ------------------------------------------------------- no lost update

  /** Nothing is on its way: no flush is due and no evicted socket is still closing. */
  predicate Quiet(s: Server) { !s.timer && s.evicted == {} }

  ghost predicate AllShow(s: Server, data: Snapshot) {
    forall ws :: ws in s.open ==> ws in s.received && s.received[ws] == data
  }

  /** Every open browser shows the server as it is now. */
  ghost predicate AllCurrent(s: Server) { AllShow(s, View(s)) }

  predicate CacheCurrent(s: Server) { !s.dirty && s.cached == Some(View(s)) }

  ghost predicate Inv(s: Server) {
    && (forall ws :: ws in s.open ==> ws in s.browsers)
    && Unique(s.clients)
    && (!s.dirty ==> s.cached.Some?)
    && (!s.dirty && s.evicted == {} ==> s.cached == Some(View(s)))
    && (Quiet(s) && s.open != {} ==> CacheCurrent(s) && AllCurrent(s))
  }

  lemma {:induction false} SameViews(clients: OMap<Socket, Connected>, ws: Socket, c: Connected)
    requires Get(clients, ws).Some? && Get(clients, ws).value.view == c.view
    ensures Views(Put(clients, ws, c)) == Views(clients)
  {
    if clients[0].0 != ws {
      SameViews(clients[1..], ws, c);
      assert Views(clients) == [clients[0].1.view] + Views(clients[1..]);
      assert Views(Put(clients, ws, c)) == [clients[0].1.view] + Views(Put(clients[1..], ws, c));
    } else {
      assert forall i :: 0 < i < |clients| ==> Put(clients, ws, c)[i] == clients[i];
    }
  }

  /** Replacing a client by one with the same view changes nothing a browser sees. */
  lemma RewriteKeepsInv(s: Server, ws: Socket, c: Connected)
    requires Inv(s) && Get(s.clients, ws).Some? && Get(s.clients, ws).value.view == c.view
    ensures Inv(s.(clients := Put(s.clients, ws, c)))
  {
    SameViews(s.clients, ws, c);
    PutUnique(s.clients, ws, c);
  }

  lemma {:induction false} SendToAll(received: map<Socket, Snapshot>, browsers: seq<Socket>, open: set<Socket>, data: Snapshot)
    ensures var r := SendTo(received, browsers, open, data);
      && (forall ws :: ws in browsers && ws in open ==> ws in r && r[ws] == data)
      && (forall ws :: ws in received && ws !in open ==> ws in r && r[ws] == received[ws])
  {
    if browsers == [] {
    } else {
      SendToAll(received, browsers[..|browsers| - 1], open, data);
      assert browsers == browsers[..|browsers| - 1] + [browsers[|browsers| - 1]];
    }
  }

  lemma {:induction false} RemoveMembers(browsers: seq<Socket>, ws: Socket, x: Socket)
    requires x in browsers && x != ws
    ensures x in Remove(browsers, ws)
  {
    if browsers[0] == ws || browsers[0] == x {
    } else {
      RemoveMembers(browsers[1..], ws, x);
    }
  }

  lemma {:induction false} FreshHas(clients: OMap<Socket, Connected>, cutoff: int, ws: Socket)
    requires Has(Fresh(clients, cutoff), ws)
    ensures Has(clients, ws)
  {
    var init, last := clients[..|clients| - 1], clients[|clients| - 1];
    assert clients == init + [last];
    HasAppend(init, last, ws);
    HasAppend(Fresh(init, cutoff), last, ws);
    assert Fresh(init, cutoff) + [] == Fresh(init, cutoff);
    if !Has(Fresh(init, cutoff), ws) {
    } else {
      FreshHas(init, cutoff, ws);
    }
  }

  lemma {:induction false} FreshUnique(clients: OMap<Socket, Connected>, cutoff: int)
    requires Unique(clients)
    ensures Unique(Fresh(clients, cutoff))
  {
    if clients == [] {
    } else {
      var init, last := clients[..|clients| - 1], clients[|clients| - 1];
      assert clients == init + [last];
      UniqueInit(init, last);
      FreshUnique(init, cutoff);
      if Has(Fresh(init, cutoff), last.0) { FreshHas(init, cutoff, last.0); }
      UniqueAppend(Fresh(init, cutoff), last);
      assert Fresh(init, cutoff) + [] == Fresh(init, cutoff);
    }
  }

  lemma {:induction false} NoneStale(clients: OMap<Socket, Connected>, cutoff: int)
    requires Stale(clients, cutoff) == {}
    ensures Fresh(clients, cutoff) == clients
  {
    if clients == [] {
    } else {
      NoneStale(clients[..|clients| - 1], cutoff);
      assert clients[|clients| - 1].0 !in Stale(clients, cutoff);
    }
  }

  lemma {:induction false} HasAppend(m: OMap<Socket, Connected>, last: (Socket, Connected), ws: Socket)
    ensures Has(m + [last], ws) <==> Has(m, ws) || ws == last.0
  {
    if m == [] {
    } else {
      assert (m + [last])[1..] == m[1..] + [last];
      HasAppend(m[1..], last, ws);
    }
  }

  lemma {:induction false} UniqueInit(m: OMap<Socket, Connected>, last: (Socket, Connected))
    requires Unique(m + [last])
    ensures Unique(m) && !Has(m, last.0)
  {
    if m == [] {
    } else {
      assert (m + [last])[1..] == m[1..] + [last];
      UniqueInit(m[1..], last);
      HasAppend(m[1..], last, m[0].0);
    }
  }

  lemma {:induction false} UniqueAppend(m: OMap<Socket, Connected>, last: (Socket, Connected))
    requires Unique(m) && !Has(m, last.0)
    ensures Unique(m + [last])
  {
    if m == [] {
    } else {
      assert (m + [last])[1..] == m[1..] + [last];
      UniqueAppend(m[1..], last);
      HasAppend(m[1..], last, m[0].0);
    }
  }

  lemma FlushKeepsInv(s: Server)
    requires Inv(s)
    ensures Inv(OnFlush(s))
  {
    if s.timer && s.browsers != [] {
      var ready := Serialize(s.(timer := false));
      SendToAll(ready.received, ready.browsers, ready.open, ready.cached.value);
    }
  }

  lemma BrowserKeepsInv(s: Server, ws: Socket)
    requires Inv(s)
    ensures Inv(OnBrowser(s, ws))
  {
    var t := OnBrowser(s, ws);
    assert View(t) == View(s);
    if Quiet(s) && s.open != {} {
      assert t.cached == s.cached;
    }
  }

  lemma ClientEventKeepsInv(s: Server, ws: Socket, t: Telemetry, now: int)
    requires Inv(s)
    ensures Inv(OnClientEvent(s, ws, t, now))
  {
    match Get(s.clients, ws)
    case None =>
    case Some(c) =>
      match Adopt(c.view, t)
      case None => RewriteKeepsInv(s, ws, c.(lastSeenAt := now));
      case Some(view) => PutUnique(s.clients, ws, c.(lastSeenAt := now, view := view));
  }

  /** Handlers that rewrite one client without changing its view. */
  lemma QueueAndClockKeepInv(s: Server, e: Event)
    requires Inv(s) && (e.CommandPoll? || e.CommandAck? || e.CommandPosted?)
    ensures Inv(React(s, e))
  {
    match e
    case CommandPoll(ws, frame, now) =>
      if Get(s.clients, ws).Some? {
        var c := Get(s.clients, ws).value;
        RewriteKeepsInv(s, ws, c.(lastSeenAt := now, queue := Newest(c.queue, Kept(frame.limit))));
      }
    case CommandAck(ws, now) =>
      if Get(s.clients, ws).Some? { RewriteKeepsInv(s, ws, Get(s.clients, ws).value.(lastSeenAt := now)); }
    case CommandPosted(clientId, c, valid) =>
      var ws := Target(s.clients, clientId);
      if ws.Some? && Get(s.clients, ws.value).Some? {
        var t := Get(s.clients, ws.value).value;
        RewriteKeepsInv(s, ws.value, t.(queue := Enqueued(t.queue, c)));
      }
  }

  lemma BrowserClosedKeepsInv(s: Server, ws: Socket)
    requires Inv(s)
    ensures Inv(React(s, BrowserClosed(ws)))
  {
    forall x | x in s.open && x != ws ensures x in Remove(s.browsers, ws) { RemoveMembers(s.browsers, ws, x); }
  }

  lemma SweepKeepsInv(s: Server, now: int)
    requires Inv(s)
    ensures Inv(OnSweep(s, now))
  {
    FreshUnique(s.clients, now - CLIENT_TTL_MS);
    if Stale(s.clients, now - CLIENT_TTL_MS) == {} { NoneStale(s.clients, now - CLIENT_TTL_MS); }
  }

  lemma ReactInv(s: Server, e: Event)
    requires Inv(s)
    ensures Inv(React(s, e))
  {
    match e
    case Hello(ws, p, now) => PutUnique(s.clients, ws, Connected(ViewOf(p), p.canReceive, now, []));
    case ClientEvent(ws, t, now) => ClientEventKeepsInv(s, ws, t, now);
    case CommandPoll(_, _, _) => QueueAndClockKeepInv(s, e);
    case CommandAck(_, _) => QueueAndClockKeepInv(s, e);
    case CommandPosted(_, _, _) => QueueAndClockKeepInv(s, e);
    case ClientClosed(ws) => DeleteGet(s.clients, ws, ws);
    case BrowserConnected(ws) => BrowserKeepsInv(s, ws);
    case BrowserClosing(ws) =>
    case BrowserClosed(ws) => BrowserClosedKeepsInv(s, ws);
    case FlushTimer => FlushKeepsInv(s);
    case Sweep(now) => SweepKeepsInv(s, now);
    case Shutdown =>
  }

  lemma {:induction false} ReactAllInv(s: Server, events: seq<Event>)
    requires Inv(s)
    ensures Inv(ReactAll(s, events))
  {
    if events == [] {
    } else {
      ReactAllInv(s, events[..|events| - 1]);
      ReactInv(ReactAll(s, events[..|events| - 1]), events[|events| - 1]);
    }
  }

  /** No update is ever lost: after any run of events, either a flush is due or an
      evicted socket's close is, or every open browser's last snapshot is the clean
      cache and equals what would be built from the clients now. */
  lemma NoLostUpdate(events: seq<Event>)
    ensures var s := ReactAll(BOOTED, events);
      s.timer || s.evicted != {} || s.open == {} || (CacheCurrent(s) && AllCurrent(s))
  {
    ReactAllInv(BOOTED, events);
  }

  lemma ShownOnFlush(s: Server)
    requires s.timer && s.browsers != [] && forall ws :: ws in s.open ==> ws in s.browsers
    ensures var t, sent := React(s, FlushTimer), Serialize(s).cached;
      sent.Some? && t.open == s.open && View(t) == View(s) && AllShow(t, sent.value)
  {
    var ready := Serialize(s.(timer := false));
    SendToAll(ready.received, ready.browsers, ready.open, ready.cached.value);
  }

  lemma ShowsOne(s: Server, a: Snapshot, b: Snapshot, ws: Socket)
    requires AllShow(s, a) && ws in s.open
    ensures AllShow(s, b) <==> a == b
  {
  }

  /** A flush brings every open browser up to date unless the cache it sends is clean
      and yet not what would be built now. */
  lemma FlushIsCurrentIff(s: Server)
    requires Inv(s) && s.timer
    ensures AllCurrent(React(s, FlushTimer)) <==> s.open == {} || s.dirty || s.cached == Some(View(s))
  {
    if forall ws :: ws !in s.open {
      assert s.open == {};
    } else {
      var ws :| ws in s.open;
      assert ws in s.browsers;
      ShownOnFlush(s);
      ShowsOne(React(s, FlushTimer), Serialize(s).cached.value, View(s), ws);
    }
  }

  lemma PendingFlush(s: Server)
    requires Inv(s)
    ensures s.timer && s.evicted == {} ==> AllCurrent(React(s, FlushTimer)) && !React(s, FlushTimer).timer
  {
    if s.timer { FlushIsCurrentIff(s); }
  }

  /** So the flush of any run does, unless an evicted socket is still closing: its
      close event marks the cache dirty again and starts the next flush. */
  lemma FlushCatchesUp(events: seq<Event>)
    ensures var s := ReactAll(BOOTED, events);
      s.timer && s.evicted == {} ==> AllCurrent(React(s, FlushTimer)) && !React(s, FlushTimer).timer
  {
    ReactAllInv(BOOTED, events);
    PendingFlush(ReactAll(BOOTED, events));
  }

  lemma OneClientIsShown(joined: OMap<Socket, Connected>)
    requires |joined| == 1
    ensures Snap(Views(joined)) != Snap(Views([]))
  {
    var c := joined[0].1.view;
    assert Views(joined) == [c] && Views([]) == [] && [c][..0] == [];
    assert Gather([c]) == GatherClient(Gather([]), c);
    assert |Snap([c]).clients| == 1;
  }

  /** A flush that does send a stale cache: a browser connects while the flush for a new
      client is due, and the sweep then empties the server without a broadcast. */
  lemma FlushSendsStale(ws: Socket, browser: Socket, p: HelloPayload)
    ensures var s := ReactAll(BOOTED, [Hello(ws, p, 0), BrowserConnected(browser), Sweep(CLIENT_TTL_MS + 1)]);
      s.timer && s.evicted == {ws} && s.clients == [] && !AllCurrent(React(s, FlushTimer))
  {
    var e := [Hello(ws, p, 0), BrowserConnected(browser), Sweep(CLIENT_TTL_MS + 1)];
    ReactAllInv(BOOTED, e);
    FirstThree(BOOTED, e);
    FirstHello(ws, p);
    SweptAway([(ws, Connected(ViewOf(p), p.canReceive, 0, []))], browser);
    FlushIsCurrentIff(ReactAll(BOOTED, e));
  }

  lemma FirstHello(ws: Socket, p: HelloPayload)
    ensures React(BOOTED, Hello(ws, p, 0)) ==
            BOOTED.(clients := [(ws, Connected(ViewOf(p), p.canReceive, 0, []))], timer := true)
  {
  }

  lemma SweptAway(joined: OMap<Socket, Connected>, browser: Socket)
    requires |joined| == 1 && joined[0].1.lastSeenAt == 0
    ensures var shown := React(BOOTED.(clients := joined, timer := true), BrowserConnected(browser));
      var s := React(shown, Sweep(CLIENT_TTL_MS + 1));
      && s.timer && s.evicted == {joined[0].0} && s.clients == []
      && s.open != {} && !s.dirty && s.cached != Some(View(s))
  {
    OneClientIsShown(joined);
    assert joined[..0] == [];
    assert Fresh(joined[..0], 1) == [] && Stale(joined[..0], 1) == {};
  }

  lemma FirstThree(s: Server, e: seq<Event>)
    requires |e| == 3
    ensures ReactAll(s, e) == React(React(React(s, e[0]), e[1]), e[2])
  {
    assert e[..2][..1] == e[..1] && e[..1][..0] == [];
    assert ReactAll(s, e[..1]) == React(s, e[0]);
    assert ReactAll(s, e[..2]) == React(ReactAll(s, e[..1]), e[1]);
  }

  /** An open browser is what it takes for a quiet server to have a clean cache: a
      flush that finds no browser leaves the cache as dirty as it was. */
  lemma FlushCleansForBrowsers(s: Server)
    requires Inv(s) && s.timer
    ensures React(s, FlushTimer).dirty <==> s.dirty && s.browsers == []
  {
  }

  /** So a quiet server can be dirty: one client, no browser, one flush. */
  lemma QuietButDirty(ws: Socket, p: HelloPayload, now: int)
    ensures var s := ReactAll(BOOTED, [Hello(ws, p, now), FlushTimer]);
      Quiet(s) && s.dirty && s.open == {}
  {
    var hello, both := [Hello(ws, p, now)], [Hello(ws, p, now), FlushTimer];
    assert hello[..0] == [] && both[..1] == hello;
    assert ReactAll(BOOTED, hello) == React(BOOTED, Hello(ws, p, now));
    assert ReactAll(BOOTED, both) == React(ReactAll(BOOTED, hello), FlushTimer);
  }

  // ----------------------------------------------------------- the handlers

  /** The server's variables, updated in place by its handlers. */
  class HqState {
    var clients: OMap<Socket, Connected>
    var browsers: seq<Socket>
    var open: set<Socket>
    var received: map<Socket, Snapshot>
    var cached: Option<Snapshot>
    var dirty: bool
    var timer: bool
    var evicted: set<Socket>

    constructor ()
      ensures State() == BOOTED
    {
      clients, browsers, open, received := [], [], {}, map[];
      cached, dirty, timer, evicted := None, true, false, {};
    }

    ghost function State(): Server
      reads this
    {
      Server(clients, browsers, open, received, cached, dirty, timer, evicted)
    }

    method BroadcastSnapshot()
      modifies this`dirty, this`timer
      ensures State() == Broadcast(old(State()))
    {
      dirty := true;
      if timer { return; }
      timer := true;
    }

    method CurrentSerialized() returns (data: Snapshot)
      modifies this`cached, this`dirty
      ensures State() == Serialize(old(State())) && cached == Some(data)
    {
      if !dirty && cached.Some? { return cached.value; }
      data := BuildSnapshot(Views(clients));
      cached := Some(data);
      dirty := false;
    }

    method Flush()
      requires timer
      modifies this
      ensures State() == React(old(State()), FlushTimer)
    {
      timer := false;
      if |browsers| == 0 { return; }
      var data := CurrentSerialized();
      var all := browsers;
      ghost var before := State();
      for i := 0 to |all|
        invariant State() == before.(received := SendTo(before.received, all[..i], before.open, data))
      {
        assert all[..i + 1][..i] == all[..i];
        if all[i] in open { received := received[all[i] := data]; }
      }
      assert all[..|all|] == all;
    }

    method HandleBrowser(ws: Socket)
      modifies this
      ensures State() == React(old(State()), BrowserConnected(ws))
    {
      if ws !in browsers { browsers := browsers + [ws]; }
      var data := CurrentSerialized();
      open := open + {ws};
      received := received[ws := data];
    }

    method BrowserGone(ws: Socket)
      modifies this
      ensures State() == React(old(State()), BrowserClosed(ws))
    {
      browsers := Remove(browsers, ws);
      open := open - {ws};
    }

    method OnHello(ws: Socket, p: HelloPayload, now: int)
      modifies this
      ensures State() == React(old(State()), Hello(ws, p, now))
    {
      clients := Put(clients, ws, Connected(ViewOf(p), p.canReceive, now, []));
      BroadcastSnapshot();
    }

    method OnEvent(ws: Socket, t: Telemetry, now: int)
      modifies this
      ensures State() == React(old(State()), ClientEvent(ws, t, now))
    {
      var client := Get(clients, ws);
      if client == None { return; }
      var c := client.value.(lastSeenAt := now);
      var adopted := Adopt(c.view, t);
      if adopted == None {
        clients := Put(clients, ws, c);
      } else {
        clients := Put(clients, ws, c.(view := adopted.value));
        BroadcastSnapshot();
      }
    }

    /** `sent` is None when there is nothing to send or the client's socket is not open. */
    method OnPoll(ws: Socket, frame: PollFrame, now: int, isOpen: bool) returns (sent: Option<seq<Command>>)
      modifies this
      ensures State() == React(old(State()), CommandPoll(ws, frame, now))
      ensures sent.Some? <==> var c := Get(old(clients), ws);
        c.Some? && isOpen && Batch(c.value.queue, frame.afterCommandId) != []
      ensures sent.Some? ==> sent.value == Batch(Get(old(clients), ws).value.queue, frame.afterCommandId)
    {
      var client := Get(clients, ws);
      if client == None { return None; }
      var c := client.value;
      var batch := Batch(c.queue, frame.afterCommandId);
      sent := if |batch| > 0 && isOpen then Some(batch) else None;
      clients := Put(clients, ws, c.(lastSeenAt := now, queue := Newest(c.queue, Kept(frame.limit))));
    }

    method OnClientClosed(ws: Socket)
      modifies this
      ensures State() == React(old(State()), ClientClosed(ws))
    {
      clients := Delete(clients, ws);
      evicted := evicted - {ws};
      BroadcastSnapshot();
    }

    method SweepStale(now: int)
      modifies this
      ensures State() == React(old(State()), Sweep(now))
    {
      var cutoff := now - CLIENT_TTL_MS;
      var entries := clients;
      var kept: OMap<Socket, Connected> := [];
      for i := 0 to |entries|
        modifies this`evicted
        invariant kept == Fresh(entries[..i], cutoff)
        invariant evicted == old(evicted) + Stale(entries[..i], cutoff)
      {
        assert entries[..i + 1][..i] == entries[..i];
        if entries[i].1.lastSeenAt < cutoff {
          evicted := evicted + {entries[i].0};
        } else {
          kept := kept + [entries[i]];
        }
      }
      assert entries[..|entries|] == entries;
      clients := kept;
      if |clients| > 0 { BroadcastSnapshot(); }
    }
  }
}
