/** What the fleet's events do to the agents behind the status line
    (packages/cli/src/fleet-statusline.ts, the handlers `start` registers). */
module FleetEvents {
  import opened Prelude
  import opened OrderedMap
  import opened FleetLine
  import opened FleetStatusLine

  /** An agent heard of for the first time: running since now, with nothing done, and
      its id for a name until one is given. */
  ghost predicate JustSeen(a: Agent, id: string, name: string, now: int) {
    && a.id == id && a.name == name && a.status == Running && a.startedAt == now
    && a.iterations == 0 && a.toolCalls == 0 && a.extensions == 0 && a.lastTool == None && a.endedAt == None
  }

  /** The agent an event other than a spawn is about, as it was or as one just seen. */
  ghost predicate IsBase(before: Option<Agent>, id: string, now: int, a: Agent) {
    before == Some(a) || (before == None && JustSeen(a, id, id, now))
  }

  ghost predicate SameAgent(a: Agent, b: Agent) { a.id == b.id && a.name == b.name && a.startedAt == b.startedAt }

  /** One event, field by field. */
  ghost predicate Recorded(e: Event, now: int, was: Agent, a: Agent)
    requires !e.Spawned?
  {
    && SameAgent(was, a)
    && a.status == (if e.TaskStarted? then Running
                    else if !e.TaskCompleted? then was.status
                    else if e.success then Done else Failed)
    && a.iterations == (if e.IterationSummary? then e.iteration else if e.TaskCompleted? then e.iterations else was.iterations)
    && a.toolCalls == (if e.ToolExecuted? then was.toolCalls + 1
                       else if e.IterationSummary? && e.reported.Some? then e.reported.value
                       else if e.TaskCompleted? then e.calls
                       else was.toolCalls)
    && a.lastTool == (if e.ToolExecuted? then Some(e.tool)
                      else if e.IterationSummary? && e.currentTool.Some? && e.currentTool.value != "" then e.currentTool
                      else was.lastTool)
    && a.extensions == (if e.BudgetExtended? then e.total else was.extensions)
    && a.endedAt == (if e.TaskCompleted? then Some(now) else was.endedAt)
  }

  /** Every event is recorded with the agent it names, and with no other. */
  lemma EventRecorded(states: Agents, e: Event, now: int, id: string)
    requires !e.Spawned?
    ensures var after := Get(Absorb(states, e, now), id);
      if id != e.id then after == Get(states, id)
      else after.Some? && exists was :: IsBase(Get(states, id), id, now, was) && Recorded(e, now, was, after.value)
  {
    var was := Ensured(states, e.id, None, now);
    PutGet(states, e.id, Changed(was, e, now), id);
    if id == e.id { assert IsBase(Get(states, id), id, now, was); }
  }

  /** A spawn adds the agent, or names one that has only its id for a name. */
  lemma SpawnRecorded(states: Agents, e: Event, now: int, id: string)
    requires e.Spawned?
    ensures var before, after := Get(states, id), Get(Absorb(states, e, now), id);
      if id != e.id then after == before
      else match before
        case None => after.Some? && JustSeen(after.value, id, if e.name.Some? then e.name.value else id, now)
        case Some(a) =>
          if e.name.Some? && e.name.value != "" && a.name == a.id then after == Some(a.(name := e.name.value)) else after == before
  {
    PutGet(states, e.id, Changed(Ensured(states, e.id, e.name, now), e, now), id);
  }

  // ---------------------------------------------------------- over whole runs

  predicate Concerns(m: Moment, id: string) { m.step.Fleet? && m.step.event.id == id }

  /** An agent's status as last reported: by its newest start or completion, and running
      before any; none at all before its first event. */
  function LastReported(run: seq<Moment>, id: string): Option<Status> {
    if run == [] then None
    else
      var before, last := LastReported(run[..|run| - 1], id), run[|run| - 1];
      if !Concerns(last, id) then before
      else match last.step.event
        case TaskCompleted(_, success, _, _) => Some(if success then Done else Failed)
        case TaskStarted(_) => Some(Running)
        case _ => if before == None then Some(Running) else before
  }

  /** When it was first heard of. */
  function FirstHeard(run: seq<Moment>, id: string): Option<int> {
    if run == [] then None
    else if FirstHeard(run[..|run| - 1], id).Some? then FirstHeard(run[..|run| - 1], id)
    else if Concerns(run[|run| - 1], id) then Some(run[|run| - 1].env.now)
    else None
  }

  /** Its tool calls: the newest reported total plus the executions since. */
  function CallsHeard(run: seq<Moment>, id: string): nat {
    if run == [] then 0
    else
      var before, last := CallsHeard(run[..|run| - 1], id), run[|run| - 1];
      if !Concerns(last, id) then before
      else match last.step.event
        case ToolExecuted(_, _) => before + 1
        case IterationSummary(_, _, Some(total), _) => total
        case TaskCompleted(_, _, _, total) => total
        case _ => before
  }

  lemma FollowedStates(cfg: Config, told: Pinned, e: Event, env: Env)
    ensures Followed(cfg, told, e, env).states == told.states
  {
    assert Scheduled(cfg, told, env).states == told.states && Activated(cfg, told, env).states == told.states;
  }

  lemma StepStates(cfg: Config, s: Pinned, step: Step, env: Env)
    ensures React(cfg, s, step, env).states == if step.Fleet? then Absorb(s.states, step.event, env.now) else s.states
  {
    if step.Fleet? { FollowedStates(cfg, s.(states := Absorb(s.states, step.event, env.now)), step.event, env); }
  }

  /** The line knows exactly the agents that were heard of, each with the status last
      reported, the calls counted since, and the time of its first event. */
  lemma {:induction false} KnownFromEvents(cfg: Config, run: seq<Moment>, id: string)
    ensures match Get(After(cfg, run).states, id)
      case None => LastReported(run, id) == None && FirstHeard(run, id) == None && CallsHeard(run, id) == 0
      case Some(a) =>
        && LastReported(run, id) == Some(a.status) && FirstHeard(run, id) == Some(a.startedAt)
        && CallsHeard(run, id) == a.toolCalls && a.id == id
  {
    if run == [] {
    } else {
      var init, last := run[..|run| - 1], run[|run| - 1];
      var s := After(cfg, init);
      KnownFromEvents(cfg, init, id);
      StepStates(cfg, s, last.step, last.env);
      if last.step.Fleet? {
        var e := last.step.event;
        if e.Spawned? { SpawnRecorded(s.states, e, last.env.now, id); } else { EventRecorded(s.states, e, last.env.now, id); }
      }
    }
  }

  lemma {:induction false} SomeRuns(states: Agents)
    ensures AnyRunning(states) <==> exists i :: 0 <= i < |states| && states[i].1.status == Running
  {
    if states == [] {
    } else {
      SomeRuns(states[1..]);
      assert forall i :: 0 < i < |states| ==> states[i] == states[1..][i - 1];
      assert forall i :: 0 <= i < |states[1..]| ==> states[1..][i] == states[i + 1];
    }
  }

  // ---------------------------------------------------------------- painting

  /** Nothing was painted, and at most a repaint was put down for later. */
  ghost predicate Deferred(s: Pinned, r: Pinned, due: int) {
    && r.lastPaint == s.lastPaint && r.drawn == s.drawn
    && r.repaint == if s.repaint.Some? then s.repaint else Some(due)
  }

  /** An event that finds the line up paints it at once when the last paint is a throttle
      interval ago or more, and otherwise leaves one repaint due when that interval ends. */
  lemma EventPaints(cfg: Config, s: Pinned, e: Event, env: Env)
    requires s.active && Tied(cfg, s)
    ensures var r := OnEvent(cfg, s, e, env);
      if env.now - s.lastPaint >= cfg.throttleMs
      then r.lastPaint == env.now && r.drawn == Some(Drawing(r.states, env.now, env.columns)) && r.repaint == s.repaint
      else Deferred(s, r, s.lastPaint + cfg.throttleMs)
  {
    var told := s.(states := Absorb(s.states, e, env.now));
    assert Activated(cfg, told, env) == told;
    FollowedStates(cfg, told, e, env);
  }

  /** A completion that leaves nothing running puts down one retraction, and nothing else
      does; each looks again when it is due, and gives the terminal back only if nothing
      runs then. */
  lemma Retractions(cfg: Config, s: Pinned, e: Event, env: Env)
    requires Tied(cfg, s)
    ensures var r := OnEvent(cfg, s, e, env);
      r.retracts == s.retracts + if e.TaskCompleted? && !AnyRunning(r.states) then 1 else 0
    ensures s.retracts > 0 ==>
              var r := React(cfg, s, RetractDue, env);
              && r.retracts == s.retracts - 1 && r.states == s.states
              && r.active == (s.active && AnyRunning(s.states))
              && (AnyRunning(s.states) ==> r.drawn == s.drawn && r.region == s.region)
              && (!AnyRunning(s.states) ==> Restored(r))
  {
    FollowedStates(cfg, s.(states := Absorb(s.states, e, env.now)), e, env);
  }

  function RowsGiven(env: Env): int { match env.rows case Some(n) => n case None => 24 }

  /** Taking the terminal and a resize both leave the bottom row out of the scroll region,
      of 24 rows when the terminal does not say, and paint at once. */
  lemma BottomRowIsReserved(cfg: Config, s: Pinned, env: Env)
    requires cfg.tty
    ensures var r := if s.active then React(cfg, s, Resize, env) else Activated(cfg, s, env);
      && r.active && r.rows == RowsGiven(env) && r.region == Some(RowsGiven(env) - 1)
      && r.drawn == Some(Drawing(s.states, env.now, env.columns)) && r.lastPaint == env.now && r.states == s.states
  {
  }

  /** Before the first event nothing is taken, known or pending. */
  lemma StartsQuiet()
    ensures Restored(STARTED) && STARTED.states == [] && STARTED.retracts == 0 && STARTED.listening
  {
  }
}
