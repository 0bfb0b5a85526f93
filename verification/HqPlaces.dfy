/** Which machines a project is on and which projects a machine works on, in the snapshot
    of packages/cli/src/hq-server.ts. */
module HqPlaces {
  import opened Prelude
  import opened OrderedMap
  import opened Counting
  import opened HqSnapshot
  import opened HqConservation

  function MachinesOf(projects: OMap<string, ProjectRecord>, q: string): seq<string> {
    match Get(projects, q) case Some(p) => p.machineIds case None => []
  }

  function ProjectsAt(machines: OMap<string, MachineRecord>, k: string): seq<string> {
    match Get(machines, k) case Some(m) => m.projectIds case None => []
  }

  /** A client works on the project from the machine: the one it names, or its project's. */
  predicate WorksFrom(c: Client, q: string, m: string) {
    c.projectId == q && m == if c.machineId != "" then c.machineId else c.project.machineId
  }

  predicate RunsOn(s: Session, q: string, m: string) { s.projectId == q && s.machineId == m }

  ghost predicate SomeClient(clients: seq<Client>, q: string, m: string) {
    exists c :: c in clients && WorksFrom(c, q, m)
  }

  ghost predicate SomeSession(live: OMap<string, Session>, q: string, m: string) {
    exists e :: e in live && RunsOn(e.1, q, m)
  }

  lemma ClientAdds(projects: OMap<string, ProjectRecord>, c: Client, q: string, m: string)
    requires m != ""
    ensures m in MachinesOf(AddProject(projects, c), q) <==> m in MachinesOf(projects, q) || WorksFrom(c, q, m)
  {
    var p := match Get(projects, c.projectId)
      case None => ProjectRecord(c.projectId, Truthy(c.project.projectName, c.projectId), c.project.projectRoot,
                                 c.project.gitBranch, [ClientMachine(c)], 0, 0, 0, 0.0)
      case Some(p) => p.(machineIds := Adjoin(p.machineIds, ClientMachine(c)));
    PutGet(projects, c.projectId, p, q);
  }

  lemma {:induction false} GatheredMachines(clients: seq<Client>, q: string, m: string)
    requires m != ""
    ensures m in MachinesOf(Gather(clients).projects, q) <==> SomeClient(clients, q, m)
  {
    if clients == [] {
    } else {
      var init, c := clients[..|clients| - 1], clients[|clients| - 1];
      GatheredMachines(init, q, m);
      ClientAdds(Gather(init).projects, c, q, m);
      assert clients == init + [c];
    }
  }

  lemma {:induction false} CountingKeepsMachines(projects: OMap<string, ProjectRecord>, records: OMap<string, ClientRecord>, q: string)
    ensures MachinesOf(CountClients(projects, records), q) == MachinesOf(projects, q)
  {
    if records == [] {
    } else {
      var init, rec := records[..|records| - 1], records[|records| - 1].1;
      var before := CountClients(projects, init);
      CountingKeepsMachines(projects, init, q);
      if Get(before, rec.projectId).Some? {
        var p := Get(before, rec.projectId).value;
        PutGet(before, rec.projectId, p.(activeClients := p.activeClients + 1), q);
      }
    }
  }

  lemma SessionAdds(projects: OMap<string, ProjectRecord>, s: Session, q: string, m: string)
    requires m != ""
    ensures m in MachinesOf(AddSessionToProject(projects, s), q) <==> m in MachinesOf(projects, q) || RunsOn(s, q, m)
  {
    var p := match Get(projects, s.projectId)
      case None => ProjectRecord(s.projectId, Truthy(s.projectName, s.projectId), s.projectRoot, s.gitBranch,
                                 [s.machineId], 0, 0, 0, 0.0)
      case Some(p) => if s.machineId != "" then p.(machineIds := Adjoin(p.machineIds, s.machineId)) else p;
    PutGet(projects, s.projectId,
           p.(activeSessions := p.activeSessions + 1,
              activeSubagents := p.activeSubagents + Subagents(s.agents),
              totalCostUsd := p.totalCostUsd + Cost(s.agents)), q);
  }

  lemma {:induction false} RolledMachinesOf(projects: OMap<string, ProjectRecord>, live: OMap<string, Session>, q: string, m: string)
    requires m != ""
    ensures m in MachinesOf(RollSessions(projects, live).projects, q) <==> m in MachinesOf(projects, q) || SomeSession(live, q, m)
  {
    if live == [] {
    } else {
      var init, e := live[..|live| - 1], live[|live| - 1];
      RolledMachinesOf(projects, init, q, m);
      SessionAdds(RollSessions(projects, init).projects, e.1, q, m);
      assert live == init + [e];
    }
  }

  /** A project is on exactly the machines its clients and its live sessions name. */
  lemma ProjectMachinesAre(clients: seq<Client>, q: string, m: string)
    requires m != ""
    ensures var s := Snap(clients);
      m in MachinesOf(s.projects, q) <==> SomeClient(clients, q, m) || SomeSession(s.liveSessions, q, m)
  {
    var g := Gather(clients);
    GatheredMachines(clients, q, m);
    CountingKeepsMachines(g.projects, g.records, q);
    RolledMachinesOf(CountClients(g.projects, g.records), g.sessions, q, m);
  }

  // ------------------------------------------------------ projects of a machine

  predicate SitsAt(s: Session, k: string, p: string) { MachineKey(s.hostname, s.machineId) == k && s.projectId == p }

  /** A client that says neither machine nor host is on no machine. */
  predicate IsPlaced(rec: ClientRecord) { rec.machineId != "" || rec.hostname != None }

  predicate IsAt(rec: ClientRecord, k: string, p: string) {
    IsPlaced(rec) && MachineKey(rec.hostname, rec.machineId) == k && rec.projectId == p
  }

  ghost predicate SomeSessionAt(live: OMap<string, Session>, k: string, p: string) {
    exists e :: e in live && SitsAt(e.1, k, p)
  }

  ghost predicate SomeRecordAt(records: OMap<string, ClientRecord>, k: string, p: string) {
    exists e :: e in records && IsAt(e.1, k, p)
  }

  lemma SessionSits(machines: OMap<string, MachineRecord>, s: Session, k: string, p: string)
    ensures p in ProjectsAt(AddSessionToMachine(machines, s), k) <==> p in ProjectsAt(machines, k) || SitsAt(s, k, p)
  {
    var key := MachineKey(s.hostname, s.machineId);
    var m := match Get(machines, key)
      case None => MachineRecord(s.machineId, Given(s.hostname), 0, 0, 0, [])
      case Some(m) => m;
    PutGet(machines, key, m.(sessionCount := m.sessionCount + 1, agentCount := m.agentCount + |s.agents|,
                             projectIds := Adjoin(m.projectIds, s.projectId)), k);
  }

  lemma {:induction false} RolledProjectsAt(projects: OMap<string, ProjectRecord>, live: OMap<string, Session>, k: string, p: string)
    ensures p in ProjectsAt(RollSessions(projects, live).machines, k) <==> SomeSessionAt(live, k, p)
  {
    if live == [] {
    } else {
      var init, e := live[..|live| - 1], live[|live| - 1];
      RolledProjectsAt(projects, init, k, p);
      SessionSits(RollSessions(projects, init).machines, e.1, k, p);
      assert live == init + [e];
    }
  }

  lemma RecordSits(machines: OMap<string, MachineRecord>, rec: ClientRecord, k: string, p: string)
    ensures p in ProjectsAt(AddClientToMachine(machines, rec), k) <==> p in ProjectsAt(machines, k) || IsAt(rec, k, p)
  {
    if Placed(rec) {
      var key := MachineKey(rec.hostname, rec.machineId);
      var m := match Get(machines, key)
        case None => MachineRecord(rec.machineId, rec.hostname, 0, 0, 0, [])
        case Some(m) => m;
      PutGet(machines, key, m.(clientCount := m.clientCount + 1, projectIds := Adjoin(m.projectIds, rec.projectId),
                               hostname := if m.hostname == None then rec.hostname else m.hostname), k);
    }
  }

  lemma {:induction false} AttributedProjectsAt(machines: OMap<string, MachineRecord>, records: OMap<string, ClientRecord>, k: string, p: string)
    ensures p in ProjectsAt(AddClientsToMachines(machines, records), k) <==> p in ProjectsAt(machines, k) || SomeRecordAt(records, k, p)
  {
    if records == [] {
    } else {
      var init, e := records[..|records| - 1], records[|records| - 1];
      AttributedProjectsAt(machines, init, k, p);
      RecordSits(AddClientsToMachines(machines, init), e.1, k, p);
      assert records == init + [e];
    }
  }

  /** A machine works on exactly the projects of the live sessions and of the clients on it. */
  lemma MachineProjectsAre(clients: seq<Client>, k: string, p: string)
    ensures var s := Snap(clients);
      p in ProjectsAt(s.machines, k) <==> SomeSessionAt(s.liveSessions, k, p) || SomeRecordAt(s.clients, k, p)
  {
    var g := Gather(clients);
    var counted := CountClients(g.projects, g.records);
    RolledProjectsAt(counted, g.sessions, k, p);
    AttributedProjectsAt(RollSessions(counted, g.sessions).machines, g.records, k, p);
  }

  function OnePlacedAt(k: string): ClientRecord -> int {
    (rec: ClientRecord) => if IsPlaced(rec) && MachineKey(rec.hostname, rec.machineId) == k then 1 else 0
  }

  lemma {:induction false} PlacedAreCounted(records: OMap<string, ClientRecord>, k: string)
    ensures ClientsOn(records, k) == SumInt(records, OnePlacedAt(k))
  {
    if records == [] {
    } else {
      PlacedAreCounted(records[..|records| - 1], k);
      SumIntLast(records, OnePlacedAt(k));
    }
  }

  /** And counts the clients on it one by one. */
  lemma MachineClientsAre(clients: seq<Client>, k: string)
    ensures var s := Snap(clients); LoadOf(s.machines, k).clients == SumInt(s.clients, OnePlacedAt(k))
  {
    RecordsCountTheirOwn(clients, "", k);
    PlacedAreCounted(Snap(clients).clients, k);
  }
}
