/** `buildSnapshot` of packages/cli/src/hq-server.ts: every connected client's
    sessions, fleets and mailboxes folded into per-project and per-machine records.
    Timestamps are left out, so equal clients give equal snapshots. */
module HqSnapshot {
  import opened Prelude
  import opened OrderedMap

  datatype Agent = Agent(id: string, costUsd: Option<real>)

  datatype Session = Session(
    sessionId: string,
    projectId: string,
    projectName: string,
    projectRoot: string,
    gitBranch: Option<string>,
    machineId: string,
    hostname: Option<string>,
    agents: seq<Agent>)

  datatype Mailbox = Mailbox(mailboxId: string, scope: string, messages: nat, unread: nat, incomplete: nat)

  datatype Fleet = Fleet(runId: string, activeSubagents: nat, queuedTasks: nat, completedTasks: nat, failedTasks: nat)

  datatype ProjectIdentity = ProjectIdentity(
    projectName: string,
    projectRoot: string,
    machineId: string,
    gitBranch: Option<string>)

  /** The part of a connected client a snapshot can see. */
  datatype Client = Client(
    clientId: string,
    projectId: string,
    project: ProjectIdentity,
    kind: string,
    hostname: Option<string>,
    machineId: string,
    sessions: OMap<string, Session>,
    mailboxes: OMap<string, Mailbox>,
    fleets: OMap<string, Fleet>)

  datatype ClientRecord = ClientRecord(
    clientId: string,
    kind: string,
    machineId: string,
    hostname: Option<string>,
    projectId: string)

  datatype ProjectRecord = ProjectRecord(
    projectId: string,
    projectName: string,
    projectRoot: string,
    gitBranch: Option<string>,
    machineIds: seq<string>,
    activeClients: int,
    activeSessions: int,
    activeSubagents: int,
    totalCostUsd: real)

  datatype MachineRecord = MachineRecord(
    machineId: string,
    hostname: Option<string>,
    clientCount: int,
    sessionCount: int,
    agentCount: int,
    projectIds: seq<string>)

  datatype MailboxSummary = MailboxSummary(projectId: string, mailbox: Mailbox)

  datatype FleetSummary = FleetSummary(fleet: Fleet, clientId: string, projectId: string)

  datatype Totals = Totals(
    activeProjects: int,
    activeClients: int,
    activeSessions: int,
    activeSubagents: int,
    unreadMailboxMessages: int,
    incompleteMailboxMessages: int,
    totalCostUsd: real,
    activeMachines: int,
    activeAgents: int)

  datatype Snapshot = Snapshot(
    clients: OMap<string, ClientRecord>,
    projects: OMap<string, ProjectRecord>,
    liveSessions: OMap<string, Session>,
    fleets: OMap<string, FleetSummary>,
    mailboxes: seq<MailboxSummary>,
    machines: OMap<string, MachineRecord>,
    totals: Totals)

  // ------------------------------------------------------------------- steps

  function Adjoin(ids: seq<string>, id: string): seq<string> {
    if id in ids then ids else ids + [id]
  }

  function Truthy(a: string, b: string): string { if a != "" then a else b }

  /** Hostname first, so one computer is one machine; else the machine id. */
  function MachineKey(hostname: Option<string>, machineId: string): string {
    var host := if hostname.Some? then Trim(hostname.value) else "";
    if host != "" then "host:" + Lower(host) else "mid:" + Truthy(machineId, "local")
  }

  /** An empty hostname is left out of a record. */
  function Given(hostname: Option<string>): Option<string> {
    if hostname == Some("") then None else hostname
  }

  function ClientMachine(c: Client): string {
    Truthy(c.machineId, c.project.machineId)
  }

  datatype Gathered = Gathered(
    records: OMap<string, ClientRecord>,
    projects: OMap<string, ProjectRecord>,
    sessions: OMap<string, Session>,
    fleets: OMap<string, FleetSummary>,
    mailboxes: seq<MailboxSummary>)

  function RecordOf(c: Client): ClientRecord {
    ClientRecord(c.clientId, c.kind, ClientMachine(c), Given(c.hostname), c.projectId)
  }

  /** The first socket of a client id provides its record. */
  function AddRecord(records: OMap<string, ClientRecord>, c: Client): OMap<string, ClientRecord> {
    if Has(records, c.clientId) then records else Put(records, c.clientId, RecordOf(c))
  }

  function AddProject(projects: OMap<string, ProjectRecord>, c: Client): OMap<string, ProjectRecord> {
    match Get(projects, c.projectId)
    case None => Put(projects, c.projectId,
        ProjectRecord(c.projectId, Truthy(c.project.projectName, c.projectId), c.project.projectRoot,
                      c.project.gitBranch, [ClientMachine(c)], 0, 0, 0, 0.0))
    case Some(p) =>
      if ClientMachine(c) != "" then Put(projects, c.projectId, p.(machineIds := Adjoin(p.machineIds, ClientMachine(c))))
      else projects
  }

  /** Later sockets overwrite earlier ones. */
  function AddSessions(all: OMap<string, Session>, own: OMap<string, Session>): OMap<string, Session> {
    if own == [] then all
    else var s := own[|own| - 1].1; Put(AddSessions(all, own[..|own| - 1]), s.sessionId, s)
  }

  function AddFleets(all: OMap<string, FleetSummary>, c: Client, own: OMap<string, Fleet>): OMap<string, FleetSummary> {
    if own == [] then all
    else var f := own[|own| - 1].1;
      Put(AddFleets(all, c, own[..|own| - 1]), f.runId, FleetSummary(f, c.clientId, c.projectId))
  }

  function AddMailboxes(all: seq<MailboxSummary>, c: Client, own: OMap<string, Mailbox>): seq<MailboxSummary> {
    if own == [] then all
    else AddMailboxes(all, c, own[..|own| - 1]) + [MailboxSummary(c.projectId, own[|own| - 1].1)]
  }

  function GatherClient(g: Gathered, c: Client): Gathered {
    Gathered(AddRecord(g.records, c), AddProject(g.projects, c), AddSessions(g.sessions, c.sessions),
             AddFleets(g.fleets, c, c.fleets), AddMailboxes(g.mailboxes, c, c.mailboxes))
  }

  function Gather(clients: seq<Client>): Gathered {
    if clients == [] then Gathered([], [], [], [], [])
    else GatherClient(Gather(clients[..|clients| - 1]), clients[|clients| - 1])
  }

  function CountClient(projects: OMap<string, ProjectRecord>, rec: ClientRecord): OMap<string, ProjectRecord> {
    match Get(projects, rec.projectId)
    case None => projects
    case Some(p) => Put(projects, rec.projectId, p.(activeClients := p.activeClients + 1))
  }

  function CountClients(projects: OMap<string, ProjectRecord>, records: OMap<string, ClientRecord>)
    : OMap<string, ProjectRecord>
  {
    if records == [] then projects
    else CountClient(CountClients(projects, records[..|records| - 1]), records[|records| - 1].1)
  }

  function Subagents(agents: seq<Agent>): nat {
    if agents == [] then 0
    else Subagents(agents[..|agents| - 1]) + if agents[|agents| - 1].id != "leader" then 1 else 0
  }

  function Cost(agents: seq<Agent>): real {
    if agents == [] then 0.0
    else Cost(agents[..|agents| - 1]) + match agents[|agents| - 1].costUsd case Some(c) => c case None => 0.0
  }

  function AddSessionToProject(projects: OMap<string, ProjectRecord>, s: Session): OMap<string, ProjectRecord> {
    var p := match Get(projects, s.projectId)
      case None => ProjectRecord(s.projectId, Truthy(s.projectName, s.projectId), s.projectRoot, s.gitBranch,
                                 [s.machineId], 0, 0, 0, 0.0)
      case Some(p) => if s.machineId != "" then p.(machineIds := Adjoin(p.machineIds, s.machineId)) else p;
    Put(projects, s.projectId,
        p.(activeSessions := p.activeSessions + 1,
           activeSubagents := p.activeSubagents + Subagents(s.agents),
           totalCostUsd := p.totalCostUsd + Cost(s.agents)))
  }

  function AddSessionToMachine(machines: OMap<string, MachineRecord>, s: Session): OMap<string, MachineRecord> {
    var key := MachineKey(s.hostname, s.machineId);
    var m := match Get(machines, key)
      case None => MachineRecord(s.machineId, Given(s.hostname), 0, 0, 0, [])
      case Some(m) => m;
    Put(machines, key, m.(sessionCount := m.sessionCount + 1,
                          agentCount := m.agentCount + |s.agents|,
                          projectIds := Adjoin(m.projectIds, s.projectId)))
  }

  datatype Rollup = Rollup(
    projects: OMap<string, ProjectRecord>,
    machines: OMap<string, MachineRecord>,
    agents: int,
    subagents: int,
    cost: real)

  function RollSession(r: Rollup, s: Session): Rollup {
    Rollup(AddSessionToProject(r.projects, s), AddSessionToMachine(r.machines, s),
           r.agents + |s.agents|, r.subagents + Subagents(s.agents), r.cost + Cost(s.agents))
  }

  function RollSessions(projects: OMap<string, ProjectRecord>, live: OMap<string, Session>): Rollup {
    if live == [] then Rollup(projects, [], 0, 0, 0.0)
    else RollSession(RollSessions(projects, live[..|live| - 1]), live[|live| - 1].1)
  }

  predicate Placed(rec: ClientRecord) { rec.machineId != "" || rec.hostname.Some? }

  function AddClientToMachine(machines: OMap<string, MachineRecord>, rec: ClientRecord): OMap<string, MachineRecord> {
    if !Placed(rec) then machines
    else
      var key := MachineKey(rec.hostname, rec.machineId);
      var m := match Get(machines, key)
        case None => MachineRecord(rec.machineId, rec.hostname, 0, 0, 0, [])
        case Some(m) => m;
      Put(machines, key, m.(clientCount := m.clientCount + 1,
                            projectIds := Adjoin(m.projectIds, rec.projectId),
                            hostname := if m.hostname == None then rec.hostname else m.hostname))
  }

  function AddClientsToMachines(machines: OMap<string, MachineRecord>, records: OMap<string, ClientRecord>)
    : OMap<string, MachineRecord>
  {
    if records == [] then machines
    else AddClientToMachine(AddClientsToMachines(machines, records[..|records| - 1]), records[|records| - 1].1)
  }

  function Unread(ms: seq<MailboxSummary>): int {
    if ms == [] then 0 else Unread(ms[..|ms| - 1]) + ms[|ms| - 1].mailbox.unread
  }

  function Incomplete(ms: seq<MailboxSummary>): int {
    if ms == [] then 0 else Incomplete(ms[..|ms| - 1]) + ms[|ms| - 1].mailbox.incomplete
  }

  function Snap(clients: seq<Client>): Snapshot {
    var g := Gather(clients);
    var r := RollSessions(CountClients(g.projects, g.records), g.sessions);
    var machines := AddClientsToMachines(r.machines, g.records);
    Snapshot(g.records, r.projects, g.sessions, g.fleets, g.mailboxes, machines,
             Totals(|r.projects|, |g.records|, |g.sessions|, r.subagents, Unread(g.mailboxes),
                    Incomplete(g.mailboxes), r.cost, |machines|, r.agents))
  }

  // ------------------------------------------------------- the loops themselves

  /** The leader is every other agent's parent, and is not counted as a subagent. */
  method CountAgents(agents: seq<Agent>) returns (subagents: nat, cost: real)
    ensures subagents == Subagents(agents) && cost == Cost(agents)
  {
    subagents, cost := 0, 0.0;
    for i := 0 to |agents|
      invariant subagents == Subagents(agents[..i]) && cost == Cost(agents[..i])
    {
      assert agents[..i + 1][..i] == agents[..i];
      if agents[i].id != "leader" { subagents := subagents + 1; }
      if agents[i].costUsd.Some? { cost := cost + agents[i].costUsd.value; }
    }
    assert agents[..|agents|] == agents;
  }

  method MergeClient(g: Gathered, c: Client) returns (r: Gathered)
    ensures r == GatherClient(g, c)
  {
    var records, projects := AddRecord(g.records, c), AddProject(g.projects, c);
    var sessions, mailboxes, fleets := g.sessions, g.mailboxes, g.fleets;
    for i := 0 to |c.sessions|
      invariant sessions == AddSessions(g.sessions, c.sessions[..i])
    {
      assert c.sessions[..i + 1][..i] == c.sessions[..i];
      sessions := Put(sessions, c.sessions[i].1.sessionId, c.sessions[i].1);
    }
    for i := 0 to |c.mailboxes|
      invariant mailboxes == AddMailboxes(g.mailboxes, c, c.mailboxes[..i])
    {
      assert c.mailboxes[..i + 1][..i] == c.mailboxes[..i];
      mailboxes := mailboxes + [MailboxSummary(c.projectId, c.mailboxes[i].1)];
    }
    for i := 0 to |c.fleets|
      invariant fleets == AddFleets(g.fleets, c, c.fleets[..i])
    {
      assert c.fleets[..i + 1][..i] == c.fleets[..i];
      fleets := Put(fleets, c.fleets[i].1.runId, FleetSummary(c.fleets[i].1, c.clientId, c.projectId));
    }
    assert c.sessions[..|c.sessions|] == c.sessions;
    assert c.mailboxes[..|c.mailboxes|] == c.mailboxes;
    assert c.fleets[..|c.fleets|] == c.fleets;
    r := Gathered(records, projects, sessions, fleets, mailboxes);
  }

  method RollLiveSessions(projects: OMap<string, ProjectRecord>, live: OMap<string, Session>) returns (r: Rollup)
    ensures r == RollSessions(projects, live)
  {
    r := Rollup(projects, [], 0, 0, 0.0);
    for i := 0 to |live|
      invariant r == RollSessions(projects, live[..i])
    {
      assert live[..i + 1][..i] == live[..i];
      var s := live[i].1;
      var subagents, cost := CountAgents(s.agents);
      r := Rollup(AddSessionToProject(r.projects, s), AddSessionToMachine(r.machines, s),
                  r.agents + |s.agents|, r.subagents + subagents, r.cost + cost);
    }
    assert live[..|live|] == live;
  }

  method SumMailboxes(ms: seq<MailboxSummary>) returns (unread: int, incomplete: int)
    ensures unread == Unread(ms) && incomplete == Incomplete(ms)
  {
    unread, incomplete := 0, 0;
    for i := 0 to |ms|
      invariant unread == Unread(ms[..i]) && incomplete == Incomplete(ms[..i])
    {
      assert ms[..i + 1][..i] == ms[..i];
      unread, incomplete := unread + ms[i].mailbox.unread, incomplete + ms[i].mailbox.incomplete;
    }
    assert ms[..|ms|] == ms;
  }

  method BuildSnapshot(clients: seq<Client>) returns (snapshot: Snapshot)
    ensures snapshot == Snap(clients)
  {
    var g := Gathered([], [], [], [], []);
    for i := 0 to |clients|
      invariant g == Gather(clients[..i])
    {
      assert clients[..i + 1][..i] == clients[..i];
      g := MergeClient(g, clients[i]);
    }
    assert clients[..|clients|] == clients;
    var projects := g.projects;
    for i := 0 to |g.records|
      invariant projects == CountClients(g.projects, g.records[..i])
    {
      assert g.records[..i + 1][..i] == g.records[..i];
      projects := CountClient(projects, g.records[i].1);
    }
    assert g.records[..|g.records|] == g.records;
    var r := RollLiveSessions(projects, g.sessions);
    var machines := r.machines;
    for i := 0 to |g.records|
      invariant machines == AddClientsToMachines(r.machines, g.records[..i])
    {
      assert g.records[..i + 1][..i] == g.records[..i];
      machines := AddClientToMachine(machines, g.records[i].1);
    }
    var unread, incomplete := SumMailboxes(g.mailboxes);
    snapshot := Snapshot(g.records, r.projects, g.sessions, g.fleets, g.mailboxes, machines,
                         Totals(|r.projects|, |g.records|, |g.sessions|, r.subagents, unread,
                                incomplete, r.cost, |machines|, r.agents));
  }
}
