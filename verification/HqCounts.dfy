/** What the counters of the HQ snapshot count: agents by their ids, costs and messages by
    their fields, each from the reported payloads themselves. */
module HqCounts {
  import opened Prelude
  import opened Counting
  import opened OrderedMap
  import opened HqSnapshot
  import opened HqConservation

  /** The agents of one session with the leader's id, and those with any other. */
  function Leaders(s: Session): nat {
    HowMany(|s.agents|, (i: nat) => i < |s.agents| && s.agents[i].id == "leader")
  }

  function Workers(s: Session): nat {
    HowMany(|s.agents|, (i: nat) => i < |s.agents| && s.agents[i].id != "leader")
  }

  /** The costs its agents report; an agent that reports none costs nothing. */
  function Spent(s: Session): real {
    SumTo(|s.agents|, (i: nat) =>
      if i < |s.agents| && s.agents[i].costUsd.Some? then s.agents[i].costUsd.value else 0.0)
  }

  function Agents(s: Session): int { |s.agents| }
  function WorkersOf(s: Session): int { Workers(s) }

  lemma {:induction false} SubagentsAreWorkers(s: Session)
    ensures Subagents(s.agents) == Workers(s)
    ensures Leaders(s) + Workers(s) == |s.agents|
    decreases |s.agents|
  {
    var leader := (i: nat) => i < |s.agents| && s.agents[i].id == "leader";
    var worker := (i: nat) => i < |s.agents| && s.agents[i].id != "leader";
    if s.agents == [] {
      HowManyNext(0, leader);
      HowManyNext(0, worker);
    } else {
      var n := |s.agents| - 1;
      var t := s.(agents := s.agents[..n]);
      SubagentsAreWorkers(t);
      HowManyNext(n, leader);
      HowManyNext(n, worker);
      HowManyAgrees(n, (i: nat) => i < |t.agents| && t.agents[i].id == "leader", leader);
      HowManyAgrees(n, (i: nat) => i < |t.agents| && t.agents[i].id != "leader", worker);
    }
  }

  function CostAt(agents: seq<Agent>): nat -> real {
    (i: nat) => if i < |agents| && agents[i].costUsd.Some? then agents[i].costUsd.value else 0.0
  }

  lemma {:induction false} CostIsSum(agents: seq<Agent>)
    ensures Cost(agents) == SumTo(|agents|, CostAt(agents))
  {
    if agents == [] {
    } else {
      var init := agents[..|agents| - 1];
      CostIsSum(init);
      SumToAgrees(|init|, CostAt(init), CostAt(agents));
    }
  }

  lemma CostIsSpent(s: Session)
    ensures Cost(s.agents) == Spent(s)
  {
    CostIsSum(s.agents);
    SumToAgrees(|s.agents|, CostAt(s.agents), (i: nat) =>
      if i < |s.agents| && s.agents[i].costUsd.Some? then s.agents[i].costUsd.value else 0.0);
  }

  lemma {:induction false} RolledCounts(projects: OMap<string, ProjectRecord>, live: OMap<string, Session>)
    ensures var r := RollSessions(projects, live);
      r.agents == SumInt(live, Agents) && r.subagents == SumInt(live, WorkersOf) && r.cost == SumReal(live, Spent)
  {
    if live == [] {
    } else {
      var s := live[|live| - 1].1;
      RolledCounts(projects, live[..|live| - 1]);
      SubagentsAreWorkers(s);
      CostIsSpent(s);
      SumIntLast(live, Agents);
      SumIntLast(live, WorkersOf);
      SumRealLast(live, Spent);
    }
  }

  function LeadersOf(s: Session): int { Leaders(s) }

  lemma {:induction false} LeadersAndWorkers(live: OMap<string, Session>)
    ensures SumInt(live, LeadersOf) + SumInt(live, WorkersOf) == SumInt(live, Agents)
  {
    if live == [] {
    } else {
      SubagentsAreWorkers(live[0].1);
      LeadersAndWorkers(live[1..]);
    }
  }

  /** The totals count every agent of every live session, as subagents all but those with
      the leader's id, and add up every cost that is reported. */
  lemma TotalsCountAgents(clients: seq<Client>)
    ensures var s := Snap(clients);
      && s.totals.activeAgents == SumInt(s.liveSessions, Agents)
      && s.totals.activeSubagents == SumInt(s.liveSessions, WorkersOf)
      && s.totals.activeAgents - s.totals.activeSubagents == SumInt(s.liveSessions, LeadersOf)
      && s.totals.totalCostUsd == SumReal(s.liveSessions, Spent)
  {
    var g := Gather(clients);
    RolledCounts(CountClients(g.projects, g.records), g.sessions);
    LeadersAndWorkers(g.sessions);
  }

  // ---------------------------------------------------- one project, one machine

  predicate OfProject(s: Session, q: string) { s.projectId == q }

  /** A measure of the sessions of one project only. */
  function InProject(q: string, w: Session -> int): Session -> int { (s: Session) => if s.projectId == q then w(s) else 0 }

  function SpentIn(q: string): Session -> real { (s: Session) => if s.projectId == q then Spent(s) else 0.0 }

  function One(s: Session): int { 1 }

  lemma {:induction false} ProjectCounts(live: OMap<string, Session>, q: string)
    ensures var t := SessionsIn(live, q);
      && t.sessions == SumInt(live, InProject(q, One)) && t.subagents == SumInt(live, InProject(q, WorkersOf))
      && t.cost == SumReal(live, SpentIn(q))
  {
    if live == [] {
    } else {
      var s := live[|live| - 1].1;
      ProjectCounts(live[..|live| - 1], q);
      SubagentsAreWorkers(s);
      CostIsSpent(s);
      SumIntLast(live, InProject(q, One));
      SumIntLast(live, InProject(q, WorkersOf));
      SumRealLast(live, SpentIn(q));
    }
  }

  /** Each project record counts the live sessions of its own project, their subagents and
      their costs. */
  lemma ProjectsCountAgents(clients: seq<Client>, q: string)
    ensures var s := Snap(clients); var t := TallyOf(s.projects, q);
      && t.sessions == SumInt(s.liveSessions, InProject(q, One))
      && t.subagents == SumInt(s.liveSessions, InProject(q, WorkersOf))
      && t.cost == SumReal(s.liveSessions, SpentIn(q))
  {
    RecordsCountTheirOwn(clients, q, "");
    ProjectCounts(Snap(clients).liveSessions, q);
  }

  // ------------------------------------------------------------------ machines

  /** The hostname a machine goes by, if one is given that is not blank. */
  function HostName(hostname: Option<string>): Option<string> {
    if hostname.Some? && Trim(hostname.value) != "" then Some(Lower(Trim(hostname.value))) else None
  }

  lemma PrefixesDiffer(a: string, b: string)
    ensures "host:" + a != "mid:" + b
    ensures "host:" + a == "host:" + b ==> a == b
    ensures "mid:" + a == "mid:" + b ==> a == b
  {
    assert ("host:" + a)[0] == 'h' && ("mid:" + b)[0] == 'm';
    assert ("host:" + a)[5..] == a && ("host:" + b)[5..] == b;
    assert ("mid:" + a)[4..] == a && ("mid:" + b)[4..] == b;
  }

  /** Two reports are of one machine exactly when their hostnames are the same but for case
      and surrounding blanks, or neither has one and their machine ids are the same, none
      being the same as `local`. */
  lemma SameMachineIff(hostname: Option<string>, machineId: string, hostname': Option<string>, machineId': string)
    ensures MachineKey(hostname, machineId) == MachineKey(hostname', machineId') <==>
            HostName(hostname) == HostName(hostname') &&
            (HostName(hostname) == None ==>
               (if machineId == "" then "local" else machineId) == (if machineId' == "" then "local" else machineId'))
  {
    var a, b := Trim(if hostname.Some? then hostname.value else ""), Trim(if hostname'.Some? then hostname'.value else "");
    var m, n := Truthy(machineId, "local"), Truthy(machineId', "local");
    PrefixesDiffer(Lower(a), n);
    PrefixesDiffer(Lower(b), m);
    PrefixesDiffer(Lower(a), Lower(b));
    PrefixesDiffer(m, n);
    assert Trim("") == "";
  }

  // ------------------------------------------------------------------ mailboxes

  function UnreadAt(ms: seq<MailboxSummary>): nat -> real {
    (i: nat) => if i < |ms| then ms[i].mailbox.unread as real else 0.0
  }

  function IncompleteAt(ms: seq<MailboxSummary>): nat -> real {
    (i: nat) => if i < |ms| then ms[i].mailbox.incomplete as real else 0.0
  }

  lemma {:induction false} MessagesAddUp(ms: seq<MailboxSummary>)
    ensures Unread(ms) as real == SumTo(|ms|, UnreadAt(ms)) && Incomplete(ms) as real == SumTo(|ms|, IncompleteAt(ms))
  {
    if ms == [] {
    } else {
      var init := ms[..|ms| - 1];
      MessagesAddUp(init);
      SumToAgrees(|init|, UnreadAt(init), UnreadAt(ms));
      SumToAgrees(|init|, IncompleteAt(init), IncompleteAt(ms));
    }
  }

  /** A mailbox of some client, under that client's project. */
  ghost predicate Posted(clients: seq<Client>, x: MailboxSummary) {
    exists i, j :: 0 <= i < |clients| && 0 <= j < |clients[i].mailboxes| &&
      x.mailbox == clients[i].mailboxes[j].1 && x.projectId == clients[i].projectId
  }

  function MailboxesAt(clients: seq<Client>): nat -> real {
    (i: nat) => if i < |clients| then |clients[i].mailboxes| as real else 0.0
  }

  lemma {:induction false} AddedMailboxes(all: seq<MailboxSummary>, c: Client, own: OMap<string, Mailbox>, x: MailboxSummary)
    ensures |AddMailboxes(all, c, own)| == |all| + |own|
    ensures x in AddMailboxes(all, c, own) <==>
            x in all || (x.projectId == c.projectId && exists j :: 0 <= j < |own| && own[j].1 == x.mailbox)
  {
    if own == [] {
    } else {
      var init, last := own[..|own| - 1], own[|own| - 1].1;
      AddedMailboxes(all, c, init, x);
      assert forall j :: 0 <= j < |init| ==> init[j] == own[j];
      assert AddMailboxes(all, c, own) == AddMailboxes(all, c, init) + [MailboxSummary(c.projectId, last)];
    }
  }

  lemma {:induction false} MailboxesAreListed(clients: seq<Client>, x: MailboxSummary)
    ensures x in Gather(clients).mailboxes <==> Posted(clients, x)
    ensures |Gather(clients).mailboxes| as real == SumTo(|clients|, MailboxesAt(clients))
  {
    if clients == [] {
    } else {
      var init, c := clients[..|clients| - 1], clients[|clients| - 1];
      MailboxesAreListed(init, x);
      AddedMailboxes(Gather(init).mailboxes, c, c.mailboxes, x);
      SumToAgrees(|init|, MailboxesAt(init), MailboxesAt(clients));
      PostedLast(clients, x);
    }
  }

  lemma PostedLast(clients: seq<Client>, x: MailboxSummary)
    requires clients != []
    ensures var init, c := clients[..|clients| - 1], clients[|clients| - 1];
      Posted(clients, x) <==>
        Posted(init, x) || (x.projectId == c.projectId && exists j :: 0 <= j < |c.mailboxes| && c.mailboxes[j].1 == x.mailbox)
  {
    var init, c := clients[..|clients| - 1], clients[|clients| - 1];
    if Posted(clients, x) {
      var i, j :| 0 <= i < |clients| && 0 <= j < |clients[i].mailboxes| &&
        x.mailbox == clients[i].mailboxes[j].1 && x.projectId == clients[i].projectId;
      if i < |init| { assert init[i] == clients[i]; }
    }
    if Posted(init, x) {
      var i, j :| 0 <= i < |init| && 0 <= j < |init[i].mailboxes| &&
        x.mailbox == init[i].mailboxes[j].1 && x.projectId == init[i].projectId;
      assert clients[i] == init[i];
    }
  }

  /** The snapshot lists every client's mailboxes, each under its client's project, and its
      totals add up their unread and their incomplete messages. */
  lemma TotalsCountMessages(clients: seq<Client>, x: MailboxSummary)
    ensures var s := Snap(clients);
      && (x in s.mailboxes <==> Posted(clients, x))
      && |s.mailboxes| as real == SumTo(|clients|, MailboxesAt(clients))
      && s.totals.unreadMailboxMessages as real == SumTo(|s.mailboxes|, UnreadAt(s.mailboxes))
      && s.totals.incompleteMailboxMessages as real == SumTo(|s.mailboxes|, IncompleteAt(s.mailboxes))
  {
    MailboxesAreListed(clients, x);
    MessagesAddUp(Snap(clients).mailboxes);
  }

  // --------------------------------------------------------------------- fleets

  /** The newest fleet payload carrying a run id, with the client that reported it. */
  function LatestFleet(own: OMap<string, Fleet>, runId: string): Option<Fleet> {
    if own == [] then None
    else if own[|own| - 1].1.runId == runId then Some(own[|own| - 1].1)
    else LatestFleet(own[..|own| - 1], runId)
  }

  function ReportedFleet(clients: seq<Client>, runId: string): Option<FleetSummary> {
    if clients == [] then None
    else
      var c := clients[|clients| - 1];
      match LatestFleet(c.fleets, runId)
      case Some(f) => Some(FleetSummary(f, c.clientId, c.projectId))
      case None => ReportedFleet(clients[..|clients| - 1], runId)
  }

  lemma {:induction false} AddedFleets(all: OMap<string, FleetSummary>, c: Client, own: OMap<string, Fleet>, runId: string)
    ensures Get(AddFleets(all, c, own), runId) ==
            match LatestFleet(own, runId)
            case Some(f) => Some(FleetSummary(f, c.clientId, c.projectId))
            case None => Get(all, runId)
  {
    if own == [] {
    } else {
      var init, f := own[..|own| - 1], own[|own| - 1].1;
      AddedFleets(all, c, init, runId);
      PutGet(AddFleets(all, c, init), f.runId, FleetSummary(f, c.clientId, c.projectId), runId);
    }
  }

  /** A run id stands for the newest fleet reported under it, with its reporter's client and
      project. */
  lemma {:induction false} FleetsAreLatest(clients: seq<Client>, runId: string)
    ensures Get(Snap(clients).fleets, runId) == ReportedFleet(clients, runId)
  {
    if clients == [] {
    } else {
      var init, c := clients[..|clients| - 1], clients[|clients| - 1];
      FleetsAreLatest(init, runId);
      AddedFleets(Gather(init).fleets, c, c.fleets, runId);
    }
  }

  // -------------------------------------------------------------------- records

  /** What a client's record says of its first socket. */
  lemma RecordsDescribe(clients: seq<Client>, id: string)
    requires FirstWithId(clients, id).Some?
    ensures var c := FirstWithId(clients, id).value; var found := Get(Snap(clients).clients, id);
      && found.Some? && found.value.clientId == c.clientId == id && found.value.kind == c.kind
      && found.value.projectId == c.projectId
      && found.value.machineId == (if c.machineId != "" then c.machineId else c.project.machineId)
      && (found.value.hostname.Some? <==> c.hostname.Some? && c.hostname.value != "")
      && (found.value.hostname.Some? ==> found.value.hostname == c.hostname)
  {
    RecordsAreFirst(clients, id);
    FirstHasId(clients, id);
  }

  lemma {:induction false} FirstHasId(clients: seq<Client>, id: string)
    requires FirstWithId(clients, id).Some?
    ensures FirstWithId(clients, id).value.clientId == id
  {
    if FirstWithId(clients[..|clients| - 1], id) == None {
    } else {
      FirstHasId(clients[..|clients| - 1], id);
    }
  }

  predicate SameIdentity(p: ProjectRecord, q: ProjectRecord) {
    p.projectId == q.projectId && p.projectName == q.projectName && p.projectRoot == q.projectRoot && p.gitBranch == q.gitBranch
  }

  /** The first client of a project. */
  function FirstOfProject(clients: seq<Client>, q: string): Option<Client> {
    if clients == [] then None
    else match FirstOfProject(clients[..|clients| - 1], q)
      case Some(c) => Some(c)
      case None => if clients[|clients| - 1].projectId == q then Some(clients[|clients| - 1]) else None
  }

  /** A project's record is named after its first client's report of it. */
  predicate NamedAfter(p: ProjectRecord, c: Client) {
    && p.projectId == c.projectId && p.projectRoot == c.project.projectRoot && p.gitBranch == c.project.gitBranch
    && p.projectName == (if c.project.projectName != "" then c.project.projectName else c.projectId)
  }

  lemma {:induction false} GatheredNames(clients: seq<Client>, q: string)
    ensures var found, first := Get(Gather(clients).projects, q), FirstOfProject(clients, q);
      && (found.Some? <==> first.Some?) && (first.Some? ==> first.value.projectId == q && NamedAfter(found.value, first.value))
  {
    if clients == [] {
    } else {
      var init, c := clients[..|clients| - 1], clients[|clients| - 1];
      GatheredNames(init, q);
      GatheredNames(init, c.projectId);
      AddedProject(Gather(init).projects, c, q);
    }
  }

  lemma AddedProject(projects: OMap<string, ProjectRecord>, c: Client, q: string)
    ensures var found, was := Get(AddProject(projects, c), q), Get(projects, q);
      && (found.Some? <==> was.Some? || q == c.projectId)
      && (was.Some? ==> SameIdentity(found.value, was.value))
      && (was == None && q == c.projectId ==> NamedAfter(found.value, c))
  {
    var p := match Get(projects, c.projectId)
      case None => ProjectRecord(c.projectId, Truthy(c.project.projectName, c.projectId), c.project.projectRoot,
                                 c.project.gitBranch, [ClientMachine(c)], 0, 0, 0, 0.0)
      case Some(p) => p.(machineIds := Adjoin(p.machineIds, ClientMachine(c)));
    PutGet(projects, c.projectId, p, q);
  }

  lemma {:induction false} CountingKeepsNames(projects: OMap<string, ProjectRecord>, records: OMap<string, ClientRecord>, q: string)
    ensures var found, was := Get(CountClients(projects, records), q), Get(projects, q);
      && (found.Some? <==> was.Some?) && (was.Some? ==> SameIdentity(found.value, was.value))
  {
    if records == [] {
    } else {
      var init, rec := records[..|records| - 1], records[|records| - 1].1;
      var before := CountClients(projects, init);
      CountingKeepsNames(projects, init, q);
      if Get(before, rec.projectId).Some? {
        var p := Get(before, rec.projectId).value;
        PutGet(before, rec.projectId, p.(activeClients := p.activeClients + 1), q);
      }
    }
  }

  lemma {:induction false} RollingKeepsNames(projects: OMap<string, ProjectRecord>, live: OMap<string, Session>, q: string)
    requires Get(projects, q).Some?
    ensures var found := Get(RollSessions(projects, live).projects, q);
      found.Some? && SameIdentity(found.value, Get(projects, q).value)
  {
    if live == [] {
    } else {
      var init, s := live[..|live| - 1], live[|live| - 1].1;
      RollingKeepsNames(projects, init, q);
      SessionKeepsNames(RollSessions(projects, init).projects, s, q);
    }
  }

  lemma SessionKeepsNames(projects: OMap<string, ProjectRecord>, s: Session, q: string)
    requires Get(projects, q).Some?
    ensures var found := Get(AddSessionToProject(projects, s), q);
      found.Some? && SameIdentity(found.value, Get(projects, q).value)
  {
    var p := match Get(projects, s.projectId)
      case None => ProjectRecord(s.projectId, Truthy(s.projectName, s.projectId), s.projectRoot, s.gitBranch,
                                 [s.machineId], 0, 0, 0, 0.0)
      case Some(p) => if s.machineId != "" then p.(machineIds := Adjoin(p.machineIds, s.machineId)) else p;
    PutGet(projects, s.projectId,
           p.(activeSessions := p.activeSessions + 1,
              activeSubagents := p.activeSubagents + Subagents(s.agents),
              totalCostUsd := p.totalCostUsd + Cost(s.agents)), q);
  }

  /** The record of a project with a client goes by what its first client says of it. */
  lemma ProjectsAreNamed(clients: seq<Client>, q: string)
    requires FirstOfProject(clients, q).Some?
    ensures var found := Get(Snap(clients).projects, q);
      found.Some? && NamedAfter(found.value, FirstOfProject(clients, q).value)
  {
    var g := Gather(clients);
    GatheredNames(clients, q);
    CountingKeepsNames(g.projects, g.records, q);
    RollingKeepsNames(CountClients(g.projects, g.records), g.sessions, q);
  }
}
