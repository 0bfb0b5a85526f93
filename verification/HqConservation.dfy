/** Conservation laws of the HQ snapshot: what is counted once in a total is counted
    once in the project records and once in the machine records. */
module HqConservation {
  import opened Prelude
  import opened OrderedMap
  import opened HqSnapshot

  // the summable fields of a record
  function ClientsOf(p: ProjectRecord): int { p.activeClients }
  function SessionsOf(p: ProjectRecord): int { p.activeSessions }
  function SubagentsOf(p: ProjectRecord): int { p.activeSubagents }
  function CostOf(p: ProjectRecord): real { p.totalCostUsd }
  function MachineClients(m: MachineRecord): int { m.clientCount }
  function MachineSessions(m: MachineRecord): int { m.sessionCount }
  function MachineAgents(m: MachineRecord): int { m.agentCount }

  /** Counters of one project (zero for a project without a record). */
  datatype Tally = Tally(clients: int, sessions: int, subagents: int, cost: real)

  function TallyOf(projects: OMap<string, ProjectRecord>, q: string): Tally {
    match Get(projects, q)
    case None => Tally(0, 0, 0, 0.0)
    case Some(p) => Tally(p.activeClients, p.activeSessions, p.activeSubagents, p.totalCostUsd)
  }

  /** Counters of one machine. */
  datatype Load = Load(clients: int, sessions: int, agents: int)

  function LoadOf(machines: OMap<string, MachineRecord>, k: string): Load {
    match Get(machines, k)
    case None => Load(0, 0, 0)
    case Some(m) => Load(m.clientCount, m.sessionCount, m.agentCount)
  }

  // ------------------------------------------- independent per-key definitions

  function ClientsIn(records: OMap<string, ClientRecord>, q: string): int {
    if records == [] then 0
    else ClientsIn(records[..|records| - 1], q) + if records[|records| - 1].1.projectId == q then 1 else 0
  }

  /** What the live sessions of project `q` add up to. */
  function SessionsIn(live: OMap<string, Session>, q: string): Tally {
    if live == [] then Tally(0, 0, 0, 0.0)
    else
      var t, s := SessionsIn(live[..|live| - 1], q), live[|live| - 1].1;
      if s.projectId == q
      then Tally(0, t.sessions + 1, t.subagents + Subagents(s.agents), t.cost + Cost(s.agents))
      else t
  }

  /** What the live sessions and placed clients of machine `k` add up to. */
  function SessionsOn(live: OMap<string, Session>, k: string): Load {
    if live == [] then Load(0, 0, 0)
    else
      var t, s := SessionsOn(live[..|live| - 1], k), live[|live| - 1].1;
      if MachineKey(s.hostname, s.machineId) == k then Load(0, t.sessions + 1, t.agents + |s.agents|) else t
  }

  function ClientsOn(records: OMap<string, ClientRecord>, k: string): int {
    if records == [] then 0
    else
      var rec := records[|records| - 1].1;
      ClientsOn(records[..|records| - 1], k) +
      if Placed(rec) && MachineKey(rec.hostname, rec.machineId) == k then 1 else 0
  }

  function PlacedCount(records: OMap<string, ClientRecord>): int {
    if records == [] then 0
    else PlacedCount(records[..|records| - 1]) + if Placed(records[|records| - 1].1) then 1 else 0
  }

  function AgentsIn(live: OMap<string, Session>): int {
    if live == [] then 0 else AgentsIn(live[..|live| - 1]) + |live[|live| - 1].1.agents|
  }

  /** Every session payload the clients hold, socket by socket, oldest first. */
  function Reported(clients: seq<Client>): seq<Session> {
    if clients == [] then [] else Reported(clients[..|clients| - 1]) + Held(clients[|clients| - 1].sessions)
  }

  function Held(own: OMap<string, Session>): (r: seq<Session>)
    ensures |r| == |own| && forall i :: 0 <= i < |r| ==> r[i] == own[i].1
  {
    seq(|own|, i requires 0 <= i < |own| => own[i].1)
  }

  /** The newest payload carrying a session id. */
  function Latest(reported: seq<Session>, id: string): Option<Session> {
    if reported == [] then None
    else if reported[|reported| - 1].sessionId == id then Some(reported[|reported| - 1])
    else Latest(reported[..|reported| - 1], id)
  }

  function FirstWithId(clients: seq<Client>, id: string): Option<Client> {
    if clients == [] then None
    else match FirstWithId(clients[..|clients| - 1], id)
      case Some(c) => Some(c)
      case None => if clients[|clients| - 1].clientId == id then Some(clients[|clients| - 1]) else None
  }

  // ---------------------------------------------------------------- phase one

  lemma {:induction false} LatestAppend(a: seq<Session>, b: seq<Session>, id: string)
    ensures Latest(a + b, id) == if Latest(b, id).Some? then Latest(b, id) else Latest(a, id)
  {
    if b == [] {
      assert a + b == a;
    } else {
      assert (a + b)[..|a + b| - 1] == a + b[..|b| - 1];
      LatestAppend(a, b[..|b| - 1], id);
    }
  }

  lemma {:induction false} AddSessionsLatest(all: OMap<string, Session>, own: OMap<string, Session>, id: string)
    requires Unique(all)
    ensures Unique(AddSessions(all, own))
    ensures Get(AddSessions(all, own), id) ==
            if Latest(Held(own), id).Some? then Latest(Held(own), id) else Get(all, id)
  {
    if own == [] {
    } else {
      var init, s := own[..|own| - 1], own[|own| - 1].1;
      AddSessionsLatest(all, init, id);
      PutUnique(AddSessions(all, init), s.sessionId, s);
      PutGet(AddSessions(all, init), s.sessionId, s, id);
      assert Held(own)[..|own| - 1] == Held(init);
    }
  }

  /** Live sessions are the distinct session ids, each with its newest payload. */
  lemma {:induction false} LiveSessionsAreLatest(clients: seq<Client>, id: string)
    ensures Unique(Gather(clients).sessions)
    ensures Get(Gather(clients).sessions, id) == Latest(Reported(clients), id)
  {
    if clients == [] {
    } else {
      var init, c := clients[..|clients| - 1], clients[|clients| - 1];
      LiveSessionsAreLatest(init, id);
      AddSessionsLatest(Gather(init).sessions, c.sessions, id);
      LatestAppend(Reported(init), Held(c.sessions), id);
    }
  }

  /** Client records are the distinct client ids, each described by its first socket. */
  lemma {:induction false} RecordsAreFirst(clients: seq<Client>, id: string)
    ensures Unique(Gather(clients).records)
    ensures Get(Gather(clients).records, id) ==
            match FirstWithId(clients, id) case Some(c) => Some(RecordOf(c)) case None => None
  {
    if clients == [] {
    } else {
      var init, c := clients[..|clients| - 1], clients[|clients| - 1];
      RecordsAreFirst(init, id);
      var records := Gather(init).records;
      HasGet(records, c.clientId);
      PutUnique(records, c.clientId, RecordOf(c));
      PutGet(records, c.clientId, RecordOf(c), id);
    }
  }

  lemma AddProjectEffect(projects: OMap<string, ProjectRecord>, c: Client, q: string)
    requires Unique(projects)
    ensures var r := AddProject(projects, c);
      && Unique(r) && (Has(r, q) <==> Has(projects, q) || q == c.projectId)
      && TallyOf(r, q) == TallyOf(projects, q)
      && SumInt(r, ClientsOf) == SumInt(projects, ClientsOf)
      && SumInt(r, SessionsOf) == SumInt(projects, SessionsOf)
      && SumInt(r, SubagentsOf) == SumInt(projects, SubagentsOf)
      && SumReal(r, CostOf) == SumReal(projects, CostOf)
  {
    HasGet(projects, c.projectId);
    var p := match Get(projects, c.projectId)
      case None => ProjectRecord(c.projectId, Truthy(c.project.projectName, c.projectId), c.project.projectRoot,
                                 c.project.gitBranch, [ClientMachine(c)], 0, 0, 0, 0.0)
      case Some(p) => p.(machineIds := Adjoin(p.machineIds, ClientMachine(c)));
    PutEffect(projects, c.projectId, p, q);
  }

  /** How replacing one project record moves the counters and their sums. */
  lemma PutEffect(projects: OMap<string, ProjectRecord>, k: string, p: ProjectRecord, q: string)
    requires Unique(projects)
    ensures var r, was := Put(projects, k, p), TallyOf(projects, k);
      && Unique(r) && (Has(r, q) <==> Has(projects, q) || q == k)
      && TallyOf(r, q) == (if q == k then Tally(p.activeClients, p.activeSessions, p.activeSubagents, p.totalCostUsd)
                           else TallyOf(projects, q))
      && SumInt(r, ClientsOf) == SumInt(projects, ClientsOf) + p.activeClients - was.clients
      && SumInt(r, SessionsOf) == SumInt(projects, SessionsOf) + p.activeSessions - was.sessions
      && SumInt(r, SubagentsOf) == SumInt(projects, SubagentsOf) + p.activeSubagents - was.subagents
      && SumReal(r, CostOf) == SumReal(projects, CostOf) + p.totalCostUsd - was.cost
  {
    PutUnique(projects, k, p);
    PutGet(projects, k, p, q);
    PutSumInt(projects, k, p, ClientsOf);
    PutSumInt(projects, k, p, SessionsOf);
    PutSumInt(projects, k, p, SubagentsOf);
    PutSumReal(projects, k, p, CostOf);
  }

  /** Before anything is counted every project stands at zero, and every client's
      project has a record. */
  lemma {:induction false} GatheredProjects(clients: seq<Client>, q: string)
    ensures var projects := Gather(clients).projects;
      && Unique(projects) && TallyOf(projects, q) == Tally(0, 0, 0, 0.0)
      && SumInt(projects, ClientsOf) == 0 && SumInt(projects, SessionsOf) == 0
      && SumInt(projects, SubagentsOf) == 0 && SumReal(projects, CostOf) == 0.0
  {
    if clients == [] {
    } else {
      GatheredProjects(clients[..|clients| - 1], q);
      AddProjectEffect(Gather(clients[..|clients| - 1]).projects, clients[|clients| - 1], q);
    }
  }

  lemma {:induction false} RecordsHaveProjects(clients: seq<Client>, i: nat)
    requires i < |Gather(clients).records|
    ensures Has(Gather(clients).projects, Gather(clients).records[i].1.projectId)
  {
    var init, c := clients[..|clients| - 1], clients[|clients| - 1];
    var before := Gather(init).records;
    var q := Gather(clients).records[i].1.projectId;
    GatheredProjects(init, q);
    AddProjectEffect(Gather(init).projects, c, q);
    if !Has(before, c.clientId) { PutAbsent(before, c.clientId, RecordOf(c)); }
    if i >= |before| {
    } else {
      RecordsHaveProjects(init, i);
    }
  }

  // ---------------------------------------------------------------- phase two

  lemma {:induction false} CountedClients(projects: OMap<string, ProjectRecord>, records: OMap<string, ClientRecord>, q: string)
    requires Unique(projects)
    requires forall i :: 0 <= i < |records| ==> Has(projects, records[i].1.projectId)
    ensures var r, was := CountClients(projects, records), TallyOf(projects, q);
      && Unique(r) && (Has(r, q) <==> Has(projects, q))
      && TallyOf(r, q) == Tally(was.clients + ClientsIn(records, q), was.sessions, was.subagents, was.cost)
      && SumInt(r, ClientsOf) == SumInt(projects, ClientsOf) + |records|
      && SumInt(r, SessionsOf) == SumInt(projects, SessionsOf)
      && SumInt(r, SubagentsOf) == SumInt(projects, SubagentsOf)
      && SumReal(r, CostOf) == SumReal(projects, CostOf)
  {
    if records == [] {
    } else {
      var init, rec := records[..|records| - 1], records[|records| - 1].1;
      assert Has(projects, rec.projectId);
      CountedClients(projects, init, q);
      CountedClients(projects, init, rec.projectId);
      var before := CountClients(projects, init);
      HasGet(before, rec.projectId);
      var p := Get(before, rec.projectId).value;
      PutEffect(before, rec.projectId, p.(activeClients := p.activeClients + 1), q);
    }
  }

  // -------------------------------------------------------------- phase three

  lemma AddSessionToProjectEffect(projects: OMap<string, ProjectRecord>, s: Session, q: string)
    requires Unique(projects)
    ensures var r, was := AddSessionToProject(projects, s), TallyOf(projects, q);
      && Unique(r) && (Has(r, q) <==> Has(projects, q) || q == s.projectId)
      && TallyOf(r, q) == (if q != s.projectId then was
           else Tally(was.clients, was.sessions + 1, was.subagents + Subagents(s.agents), was.cost + Cost(s.agents)))
      && SumInt(r, ClientsOf) == SumInt(projects, ClientsOf)
      && SumInt(r, SessionsOf) == SumInt(projects, SessionsOf) + 1
      && SumInt(r, SubagentsOf) == SumInt(projects, SubagentsOf) + Subagents(s.agents)
      && SumReal(r, CostOf) == SumReal(projects, CostOf) + Cost(s.agents)
  {
    var p := match Get(projects, s.projectId)
      case None => ProjectRecord(s.projectId, Truthy(s.projectName, s.projectId), s.projectRoot, s.gitBranch,
                                 [s.machineId], 0, 0, 0, 0.0)
      case Some(p) => if s.machineId != "" then p.(machineIds := Adjoin(p.machineIds, s.machineId)) else p;
    PutEffect(projects, s.projectId,
              p.(activeSessions := p.activeSessions + 1,
                 activeSubagents := p.activeSubagents + Subagents(s.agents),
                 totalCostUsd := p.totalCostUsd + Cost(s.agents)), q);
  }

  lemma AddSessionTally(projects: OMap<string, ProjectRecord>, s: Session, q: string)
    requires Unique(projects)
    ensures var r, was := AddSessionToProject(projects, s), TallyOf(projects, q);
      && Unique(r)
      && TallyOf(r, q) == (if q != s.projectId then was
           else Tally(was.clients, was.sessions + 1, was.subagents + Subagents(s.agents), was.cost + Cost(s.agents)))
  {
    AddSessionToProjectEffect(projects, s, q);
  }

  lemma {:induction false} RolledTally(projects: OMap<string, ProjectRecord>, live: OMap<string, Session>, q: string)
    requires Unique(projects)
    ensures var r, was, t := RollSessions(projects, live), TallyOf(projects, q), SessionsIn(live, q);
      && Unique(r.projects)
      && TallyOf(r.projects, q) == Tally(was.clients, was.sessions + t.sessions, was.subagents + t.subagents, was.cost + t.cost)
  {
    if live == [] {
    } else {
      RolledTally(projects, live[..|live| - 1], q);
      AddSessionTally(RollSessions(projects, live[..|live| - 1]).projects, live[|live| - 1].1, q);
    }
  }

  lemma {:induction false} RolledSums(projects: OMap<string, ProjectRecord>, live: OMap<string, Session>)
    requires Unique(projects)
    ensures var r := RollSessions(projects, live);
      && SumInt(r.projects, ClientsOf) == SumInt(projects, ClientsOf)
      && SumInt(r.projects, SessionsOf) == SumInt(projects, SessionsOf) + |live|
      && SumInt(r.projects, SubagentsOf) == SumInt(projects, SubagentsOf) + r.subagents
      && SumReal(r.projects, CostOf) == SumReal(projects, CostOf) + r.cost
  {
    if live == [] {
    } else {
      RolledSums(projects, live[..|live| - 1]);
      RolledTally(projects, live[..|live| - 1], "");
      AddSessionToProjectEffect(RollSessions(projects, live[..|live| - 1]).projects, live[|live| - 1].1, "");
    }
  }

  lemma PutMachine(machines: OMap<string, MachineRecord>, key: string, m: MachineRecord, k: string)
    requires Unique(machines)
    ensures var r, was := Put(machines, key, m), LoadOf(machines, key);
      && Unique(r) && (Has(r, k) <==> Has(machines, k) || k == key)
      && Get(r, k) == (if k == key then Some(m) else Get(machines, k))
      && LoadOf(r, k) == (if k == key then Load(m.clientCount, m.sessionCount, m.agentCount) else LoadOf(machines, k))
      && SumInt(r, MachineClients) == SumInt(machines, MachineClients) + m.clientCount - was.clients
      && SumInt(r, MachineSessions) == SumInt(machines, MachineSessions) + m.sessionCount - was.sessions
      && SumInt(r, MachineAgents) == SumInt(machines, MachineAgents) + m.agentCount - was.agents
  {
    PutUnique(machines, key, m);
    PutGet(machines, key, m, k);
    PutSumInt(machines, key, m, MachineClients);
    PutSumInt(machines, key, m, MachineSessions);
    PutSumInt(machines, key, m, MachineAgents);
  }

  lemma AddSessionToMachineEffect(machines: OMap<string, MachineRecord>, s: Session, k: string)
    requires Unique(machines)
    ensures var r, was := AddSessionToMachine(machines, s), LoadOf(machines, k);
      && Unique(r)
      && LoadOf(r, k) == (if k == MachineKey(s.hostname, s.machineId)
                          then Load(was.clients, was.sessions + 1, was.agents + |s.agents|) else was)
      && SumInt(r, MachineClients) == SumInt(machines, MachineClients)
      && SumInt(r, MachineSessions) == SumInt(machines, MachineSessions) + 1
      && SumInt(r, MachineAgents) == SumInt(machines, MachineAgents) + |s.agents|
  {
    var key := MachineKey(s.hostname, s.machineId);
    var m := match Get(machines, key)
      case None => MachineRecord(s.machineId, Given(s.hostname), 0, 0, 0, [])
      case Some(m) => m;
    PutMachine(machines, key, m.(sessionCount := m.sessionCount + 1, agentCount := m.agentCount + |s.agents|,
                                 projectIds := Adjoin(m.projectIds, s.projectId)), k);
  }

  lemma {:induction false} RolledMachines(projects: OMap<string, ProjectRecord>, live: OMap<string, Session>, k: string)
    ensures var r := RollSessions(projects, live);
      && Unique(r.machines) && LoadOf(r.machines, k) == SessionsOn(live, k)
      && SumInt(r.machines, MachineClients) == 0
      && SumInt(r.machines, MachineSessions) == |live|
      && SumInt(r.machines, MachineAgents) == r.agents == AgentsIn(live)
  {
    if live == [] {
    } else {
      RolledMachines(projects, live[..|live| - 1], k);
      NoClientsYet(live[..|live| - 1], "", k);
      AddSessionToMachineEffect(RollSessions(projects, live[..|live| - 1]).machines, live[|live| - 1].1, k);
    }
  }

  // --------------------------------------------------------------- phase four

  lemma AddClientToMachineEffect(machines: OMap<string, MachineRecord>, rec: ClientRecord, k: string)
    requires Unique(machines)
    ensures var r, was, one := AddClientToMachine(machines, rec), LoadOf(machines, k), if Placed(rec) then 1 else 0;
      && Unique(r)
      && LoadOf(r, k) == Load(was.clients + (if Placed(rec) && MachineKey(rec.hostname, rec.machineId) == k then 1 else 0),
                              was.sessions, was.agents)
      && SumInt(r, MachineClients) == SumInt(machines, MachineClients) + one
      && SumInt(r, MachineSessions) == SumInt(machines, MachineSessions)
      && SumInt(r, MachineAgents) == SumInt(machines, MachineAgents)
  {
    if Placed(rec) {
      var key := MachineKey(rec.hostname, rec.machineId);
      var m := match Get(machines, key)
        case None => MachineRecord(rec.machineId, rec.hostname, 0, 0, 0, [])
        case Some(m) => m;
      PutMachine(machines, key, m.(clientCount := m.clientCount + 1, projectIds := Adjoin(m.projectIds, rec.projectId),
                                   hostname := if m.hostname == None then rec.hostname else m.hostname), k);
    }
  }

  lemma {:induction false} AttributedClients(machines: OMap<string, MachineRecord>, records: OMap<string, ClientRecord>, k: string)
    requires Unique(machines)
    ensures var r, was := AddClientsToMachines(machines, records), LoadOf(machines, k);
      && Unique(r)
      && LoadOf(r, k) == Load(was.clients + ClientsOn(records, k), was.sessions, was.agents)
      && SumInt(r, MachineClients) == SumInt(machines, MachineClients) + PlacedCount(records)
      && SumInt(r, MachineSessions) == SumInt(machines, MachineSessions)
      && SumInt(r, MachineAgents) == SumInt(machines, MachineAgents)
  {
    if records == [] {
    } else {
      var init, rec := records[..|records| - 1], records[|records| - 1].1;
      AttributedClients(machines, init, k);
      AddClientToMachineEffect(AddClientsToMachines(machines, init), rec, k);
    }
  }

  // ------------------------------------------------------------ main results

  lemma PhasesOf(clients: seq<Client>, q: string)
    ensures var g := Gather(clients);
      var counted := CountClients(g.projects, g.records);
      && Unique(counted) && TallyOf(counted, q) == Tally(ClientsIn(g.records, q), 0, 0, 0.0)
      && SumInt(counted, ClientsOf) == |g.records|
      && SumInt(counted, SessionsOf) == 0 && SumInt(counted, SubagentsOf) == 0 && SumReal(counted, CostOf) == 0.0
  {
    var g := Gather(clients);
    GatheredProjects(clients, q);
    forall i | 0 <= i < |g.records| ensures Has(g.projects, g.records[i].1.projectId) {
      RecordsHaveProjects(clients, i);
    }
    CountedClients(g.projects, g.records, q);
  }

  /** Each total is the sum of its share over the project records and over the
      machine records. */
  lemma SnapshotConserves(clients: seq<Client>)
    ensures var s := Snap(clients); var t := s.totals;
      && Unique(s.projects) && Unique(s.machines)
      && t.activeSessions == |s.liveSessions| == SumInt(s.projects, SessionsOf) == SumInt(s.machines, MachineSessions)
      && t.activeAgents == AgentsIn(s.liveSessions) == SumInt(s.machines, MachineAgents)
      && t.activeSubagents == SumInt(s.projects, SubagentsOf)
      && t.totalCostUsd == SumReal(s.projects, CostOf)
      && t.activeClients == |s.clients| == SumInt(s.projects, ClientsOf)
      && SumInt(s.machines, MachineClients) == PlacedCount(s.clients)
  {
    var g := Gather(clients);
    var counted := CountClients(g.projects, g.records);
    PhasesOf(clients, "");
    RolledTally(counted, g.sessions, "");
    RolledSums(counted, g.sessions);
    RolledMachines(counted, g.sessions, "");
    AttributedClients(RollSessions(counted, g.sessions).machines, g.records, "");
  }

  /** Every record counts exactly its own: a project its clients and sessions, a
      machine its placed clients and its sessions. */
  lemma RecordsCountTheirOwn(clients: seq<Client>, q: string, k: string)
    ensures var s := Snap(clients);
      && (var t := SessionsIn(s.liveSessions, q);
          TallyOf(s.projects, q) == Tally(ClientsIn(s.clients, q), t.sessions, t.subagents, t.cost))
      && (var l := SessionsOn(s.liveSessions, k);
          LoadOf(s.machines, k) == Load(ClientsOn(s.clients, k), l.sessions, l.agents))
  {
    var g := Gather(clients);
    var counted := CountClients(g.projects, g.records);
    PhasesOf(clients, q);
    RolledTally(counted, g.sessions, q);
    RolledMachines(counted, g.sessions, k);
    NoClientsYet(g.sessions, q, k);
    AttributedClients(RollSessions(counted, g.sessions).machines, g.records, k);
  }

  lemma {:induction false} NoClientsYet(live: OMap<string, Session>, q: string, k: string)
    ensures SessionsIn(live, q).clients == 0 && SessionsOn(live, k).clients == 0
  {
    if live == [] {
    } else {
      NoClientsYet(live[..|live| - 1], q, k);
    }
  }

  /** Machine `k` has a record, and it lists the project. */
  ghost predicate Lists(machines: OMap<string, MachineRecord>, k: string, projectId: string) {
    match Get(machines, k) case None => false case Some(m) => projectId in m.projectIds
  }

  /** Project `q` has a record, and it lists the machine (unless that id is empty). */
  ghost predicate Hosts(projects: OMap<string, ProjectRecord>, q: string, machineId: string) {
    match Get(projects, q) case None => false case Some(p) => machineId != "" ==> machineId in p.machineIds
  }

  /** A live session's project has exactly one record, which lists the session's
      machine, and its machine has exactly one record, which lists the project. */
  lemma SessionIsPlaced(clients: seq<Client>, i: nat)
    requires i < |Snap(clients).liveSessions|
    ensures var sn := Snap(clients); var s := sn.liveSessions[i].1;
      && Unique(sn.projects) && Hosts(sn.projects, s.projectId, s.machineId)
      && Unique(sn.machines) && Lists(sn.machines, MachineKey(s.hostname, s.machineId), s.projectId)
  {
    SnapshotConserves(clients);
    var g := Gather(clients);
    var counted, s := CountClients(g.projects, g.records), g.sessions[i].1;
    RolledSession(counted, g.sessions, i);
    KeepsProject(RollSessions(counted, g.sessions).machines, g.records, MachineKey(s.hostname, s.machineId), s.projectId);
  }

  lemma {:induction false} RolledSession(projects: OMap<string, ProjectRecord>, live: OMap<string, Session>, i: nat)
    requires i < |live|
    ensures var r, s := RollSessions(projects, live), live[i].1;
      Hosts(r.projects, s.projectId, s.machineId) && Lists(r.machines, MachineKey(s.hostname, s.machineId), s.projectId)
  {
    var init, last, s := live[..|live| - 1], live[|live| - 1].1, live[i].1;
    var r := RollSessions(projects, init);
    if i >= |live| - 1 {
    } else {
      RolledSession(projects, init, i);
    }
    ProjectStep(r.projects, last, s.projectId, s.machineId);
    MachineStep(r.machines, last, MachineKey(s.hostname, s.machineId), s.projectId);
  }

  lemma ProjectStep(projects: OMap<string, ProjectRecord>, s: Session, q: string, machineId: string)
    requires Hosts(projects, q, machineId) || (q == s.projectId && machineId == s.machineId)
    ensures Hosts(AddSessionToProject(projects, s), q, machineId)
  {
    var p := match Get(projects, s.projectId)
      case None => ProjectRecord(s.projectId, Truthy(s.projectName, s.projectId), s.projectRoot, s.gitBranch,
                                 [s.machineId], 0, 0, 0, 0.0)
      case Some(p) => if s.machineId != "" then p.(machineIds := Adjoin(p.machineIds, s.machineId)) else p;
    PutGet(projects, s.projectId,
           p.(activeSessions := p.activeSessions + 1,
              activeSubagents := p.activeSubagents + Subagents(s.agents),
              totalCostUsd := p.totalCostUsd + Cost(s.agents)), q);
  }

  lemma MachineStep(machines: OMap<string, MachineRecord>, s: Session, k: string, projectId: string)
    requires Lists(machines, k, projectId) ||
             (k == MachineKey(s.hostname, s.machineId) && projectId == s.projectId)
    ensures Lists(AddSessionToMachine(machines, s), k, projectId)
  {
    var key := MachineKey(s.hostname, s.machineId);
    var m := match Get(machines, key)
      case None => MachineRecord(s.machineId, Given(s.hostname), 0, 0, 0, [])
      case Some(m) => m;
    PutGet(machines, key, m.(sessionCount := m.sessionCount + 1, agentCount := m.agentCount + |s.agents|,
                             projectIds := Adjoin(m.projectIds, s.projectId)), k);
  }

  lemma {:induction false} KeepsProject(machines: OMap<string, MachineRecord>, records: OMap<string, ClientRecord>, k: string, projectId: string)
    requires Lists(machines, k, projectId)
    ensures Lists(AddClientsToMachines(machines, records), k, projectId)
  {
    if records == [] {
    } else {
      var init, rec := records[..|records| - 1], records[|records| - 1].1;
      KeepsProject(machines, init, k, projectId);
      if Placed(rec) {
        var before, key := AddClientsToMachines(machines, init), MachineKey(rec.hostname, rec.machineId);
        var m := match Get(before, key)
          case None => MachineRecord(rec.machineId, rec.hostname, 0, 0, 0, [])
          case Some(m) => m;
        PutGet(before, key, m.(clientCount := m.clientCount + 1, projectIds := Adjoin(m.projectIds, rec.projectId),
                               hostname := if m.hostname == None then rec.hostname else m.hostname), k);
      }
    }
  }

  /** The session total counts distinct session ids. */
  lemma {:induction false} SessionTotalCountsIds(clients: seq<Client>)
    ensures |Snap(clients).liveSessions| == |set s | s in Reported(clients) :: s.sessionId|
    ensures |Snap(clients).clients| == |set c | c in clients :: c.clientId|
  {
    var live, ids := Gather(clients).sessions, set s | s in Reported(clients) :: s.sessionId;
    LiveSessionsAreLatest(clients, "");
    forall id ensures Has(live, id) <==> id in ids {
      LiveSessionsAreLatest(clients, id);
      HasGet(live, id);
      LatestExists(Reported(clients), id);
    }
    UniqueCounts(live, ids);
    var records, owners := Gather(clients).records, set c | c in clients :: c.clientId;
    RecordsAreFirst(clients, "");
    forall id ensures Has(records, id) <==> id in owners {
      RecordsAreFirst(clients, id);
      HasGet(records, id);
      FirstExists(clients, id);
    }
    UniqueCounts(records, owners);
  }

  lemma {:induction false} LatestExists(reported: seq<Session>, id: string)
    ensures Latest(reported, id).Some? <==> exists s :: s in reported && s.sessionId == id
  {
    if reported == [] {
    } else {
      LatestExists(reported[..|reported| - 1], id);
      assert reported == reported[..|reported| - 1] + [reported[|reported| - 1]];
    }
  }

  lemma {:induction false} FirstExists(clients: seq<Client>, id: string)
    ensures FirstWithId(clients, id).Some? <==> exists c :: c in clients && c.clientId == id
  {
    if clients == [] {
    } else {
      FirstExists(clients[..|clients| - 1], id);
      assert clients == clients[..|clients| - 1] + [clients[|clients| - 1]];
    }
  }

  lemma {:induction false} UniqueCounts<V>(m: OMap<string, V>, ids: set<string>)
    requires Unique(m) && forall id :: Has(m, id) <==> id in ids
    ensures |m| == |ids|
  {
    if m == [] {
      assert forall id :: !Has(m, id);
      assert ids == {};
    } else {
      assert Has(m, m[0].0);
      forall id ensures Has(m[1..], id) <==> id in ids - {m[0].0} {
        assert Has(m, id) <==> m[0].0 == id || Has(m[1..], id);
      }
      UniqueCounts(m[1..], ids - {m[0].0});
    }
  }
}
