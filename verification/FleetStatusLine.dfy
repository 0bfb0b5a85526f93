/** packages/cli/src/fleet-statusline.ts, the class: a status line pinned to the
    terminal's bottom row while subagents run, driven by fleet events and timers. */
module FleetStatusLine {
  import opened Prelude
  import opened OrderedMap
  import opened FleetLine

  /** What the constructor fixes: `isTTY`, the repaint throttle, and the formatter with
      its colours and version (`LineOf`). */
  datatype Config = Config(tty: bool, throttleMs: int, render: (seq<Agent>, int, int) -> string)

  function LineOf(colour: bool, version: Option<string>): (seq<Agent>, int, int) -> string {
    (all: seq<Agent>, now: int, columns: int) => LineText(colour, all, now, columns, version)
  }

  /** What a handler reads around it: the clock and the terminal's size. */
  datatype Env = Env(now: int, columns: int, rows: Option<int>)

  datatype Event =
    | Spawned(id: string, name: Option<string>)
    | TaskStarted(id: string)
    | ToolExecuted(id: string, tool: string)
    | IterationSummary(id: string, iteration: nat, reported: Option<nat>, currentTool: Option<string>)
    | BudgetExtended(id: string, total: nat)
    | TaskCompleted(id: string, success: bool, iterations: nat, calls: nat)

  // ------------------------------------------------------------- the agents

  type Agents = OMap<string, Agent>

  function Truthy(s: Option<string>): bool { s.Some? && s.value != "" }

  function NewAgent(id: string, name: Option<string>, now: int): Agent {
    Agent(id, if name.Some? then name.value else id, Running, 0, 0, None, now, None, 0)
  }

  /** `ensure`: the agent is there, and a later name replaces an id standing in for it. */
  function Ensured(states: Agents, id: string, name: Option<string>, now: int): Agent {
    match Get(states, id)
    case None => NewAgent(id, name, now)
    case Some(a) => if Truthy(name) && a.name == a.id then a.(name := name.value) else a
  }

  function Changed(a: Agent, e: Event, now: int): Agent {
    match e
    case Spawned(_, _) => a
    case TaskStarted(_) => a.(status := Running)
    case ToolExecuted(_, tool) => a.(toolCalls := a.toolCalls + 1, lastTool := Some(tool))
    case IterationSummary(_, iteration, reported, currentTool) =>
      a.(iterations := iteration,
         toolCalls := if reported.Some? then reported.value else a.toolCalls,
         lastTool := if Truthy(currentTool) then currentTool else a.lastTool)
    case BudgetExtended(_, total) => a.(extensions := total)
    case TaskCompleted(_, success, iterations, calls) =>
      a.(status := if success then Done else Failed, iterations := iterations, toolCalls := calls, endedAt := Some(now))
  }

  function NameIn(e: Event): Option<string> { if e.Spawned? then e.name else None }

  function Absorb(states: Agents, e: Event, now: int): Agents {
    Put(states, e.id, Changed(Ensured(states, e.id, NameIn(e), now), e, now))
  }

  predicate AnyRunning(states: Agents) {
    states != [] && (states[0].1.status == Running || AnyRunning(states[1..]))
  }

  function Values(states: Agents): seq<Agent> {
    seq(|states|, i requires 0 <= i < |states| => states[i].1)
  }

  // ----------------------------------------------------------- the machine

  /** What the line on the bottom row was painted from. */
  datatype Drawing = Drawing(states: Agents, at: int, columns: int)

  function RowText(cfg: Config, d: Drawing): string {
    cfg.render(Values(d.states), d.at, d.columns)
  }

  /** `region` is the bottom margin of the scroll region while one is carved out,
      `drawn` what stands on the reserved row; `repaint` is when the pending repaint is
      due, `retracts` how many delayed retractions are pending. */
  datatype Pinned = Pinned(
    states: Agents,
    active: bool,
    rows: int,
    repaint: Option<int>,
    tick: bool,
    resizeHook: bool,
    lastPaint: int,
    region: Option<int>,
    drawn: Option<Drawing>,
    retracts: nat,
    listening: bool)

  const STARTED: Pinned := Pinned([], false, 0, None, false, false, 0, None, None, 0, true)

  function RowsOf(env: Env): int { if env.rows.Some? then env.rows.value else 24 }

  function Painted(cfg: Config, s: Pinned, env: Env): Pinned {
    if !s.active || !cfg.tty then s else s.(lastPaint := env.now, drawn := Some(Drawing(s.states, env.now, env.columns)))
  }

  function Activated(cfg: Config, s: Pinned, env: Env): Pinned {
    if s.active || !cfg.tty then s
    else
      var rows := RowsOf(env);
      Painted(cfg, s.(active := true, rows := rows, region := Some(rows - 1), resizeHook := true, tick := true), env)
  }

  function Deactivated(cfg: Config, s: Pinned): Pinned {
    if !s.active then s
    else
      var off := s.(active := false, tick := false, repaint := None, resizeHook := false);
      if cfg.tty then off.(region := None, drawn := None) else off
  }

  function Scheduled(cfg: Config, s: Pinned, env: Env): Pinned {
    if !s.active then s
    else
      var since := env.now - s.lastPaint;
      if since >= cfg.throttleMs then Painted(cfg, s, env)
      else if s.repaint.Some? then s
      else s.(repaint := Some(env.now + (cfg.throttleMs - since)))
  }

  /** What a handler does once it has recorded the event. */
  function Followed(cfg: Config, told: Pinned, e: Event, env: Env): Pinned {
    if e.IterationSummary? then Scheduled(cfg, told, env)
    else if e.TaskCompleted? then
      var seen := Scheduled(cfg, told, env);
      if AnyRunning(seen.states) then seen else seen.(retracts := seen.retracts + 1)
    else Scheduled(cfg, Activated(cfg, told, env), env)
  }

  function OnEvent(cfg: Config, s: Pinned, e: Event, env: Env): Pinned {
    Followed(cfg, s.(states := Absorb(s.states, e, env.now)), e, env)
  }

  /** A fleet event, one of the timers, the resize hook, or `stop`. */
  datatype Step = Fleet(event: Event) | Tick | Resize | RepaintDue | RetractDue | Stop

  function React(cfg: Config, s: Pinned, step: Step, env: Env): Pinned {
    match step
    case Fleet(e) => OnEvent(cfg, s, e, env)
    case Tick => Painted(cfg, s, env)
    case Resize =>
      if !s.active then s else Painted(cfg, s.(rows := RowsOf(env), region := Some(RowsOf(env) - 1)), env)
    case RepaintDue => Painted(cfg, s.(repaint := None), env)
    case RetractDue =>
      var fired := s.(retracts := Max(0, s.retracts - 1));
      if AnyRunning(fired.states) then fired else Deactivated(cfg, fired)
    case Stop => Deactivated(cfg, s.(listening := false))
  }

  /** A handler runs only while it is registered, a timer only while it is pending. */
  predicate Enabled(s: Pinned, step: Step, env: Env) {
    match step
    case Fleet(_) => s.listening
    case Tick => s.tick
    case Resize => s.resizeHook
    case RepaintDue => s.repaint.Some? && s.repaint.value <= env.now
    case RetractDue => s.retracts > 0
    case Stop => true
  }

  datatype Moment = Moment(step: Step, env: Env)

  function After(cfg: Config, run: seq<Moment>): Pinned {
    if run == [] then STARTED
    else React(cfg, After(cfg, run[..|run| - 1]), run[|run| - 1].step, run[|run| - 1].env)
  }

  function Clock(boot: int, run: seq<Moment>): int { if run == [] then boot else run[|run| - 1].env.now }

  /** Only enabled steps, and a clock that never runs backwards. */
  predicate Possible(cfg: Config, boot: int, run: seq<Moment>) {
    run == [] ||
    var init, last := run[..|run| - 1], run[|run| - 1];
    Possible(cfg, boot, init) && Enabled(After(cfg, init), last.step, last.env) && Clock(boot, init) <= last.env.now
  }

  // ------------------------------------------------------------ lifecycle

  /** The terminal is taken exactly while the line is active. */
  predicate Tied(cfg: Config, s: Pinned) {
    && (s.active ==> cfg.tty)
    && (s.tick <==> s.active)
    && (s.resizeHook <==> s.active)
    && s.region == (if s.active then Some(s.rows - 1) else None)
    && (s.drawn.Some? <==> s.active)
    && (s.repaint.Some? ==> s.active)
  }

  /** What stands on the row was painted at the last paint, and a pending repaint is due
      at most one throttle interval after that. */
  predicate Placed(cfg: Config, s: Pinned, now: int) {
    s.active && s.drawn.Some? ==>
      && s.drawn.value.at == s.lastPaint <= now
      && (s.repaint.Some? ==> s.repaint.value <= s.lastPaint + cfg.throttleMs)
  }

  /** Unless a repaint is pending, it shows the agents as they are now. */
  predicate Shows(s: Pinned) {
    s.active && s.drawn.Some? && s.repaint == None ==> s.drawn.value.states == s.states
  }

  predicate Current(cfg: Config, s: Pinned, now: int) { Placed(cfg, s, now) && Shows(s) }

  lemma FollowedTied(cfg: Config, told: Pinned, e: Event, env: Env)
    requires Tied(cfg, told)
    ensures Tied(cfg, Followed(cfg, told, e, env))
  {
  }

  lemma StepTied(cfg: Config, s: Pinned, step: Step, env: Env)
    requires Tied(cfg, s) && Enabled(s, step, env)
    ensures Tied(cfg, React(cfg, s, step, env))
  {
    if step.Fleet? { FollowedTied(cfg, s.(states := Absorb(s.states, step.event, env.now)), step.event, env); }
  }

  lemma ScheduledCurrent(cfg: Config, s: Pinned, env: Env, now: int)
    requires Tied(cfg, s) && Placed(cfg, s, now) && now <= env.now
    ensures Current(cfg, Scheduled(cfg, s, env), env.now)
  {
  }

  lemma FollowedCurrent(cfg: Config, told: Pinned, e: Event, env: Env, now: int)
    requires Tied(cfg, told) && Placed(cfg, told, now) && now <= env.now
    ensures Current(cfg, Followed(cfg, told, e, env), env.now)
  {
    ScheduledCurrent(cfg, told, env, now);
    if !told.active { ScheduledCurrent(cfg, Activated(cfg, told, env), env, env.now); }
  }

  lemma StepCurrent(cfg: Config, s: Pinned, step: Step, env: Env, now: int)
    requires Tied(cfg, s) && Current(cfg, s, now) && Enabled(s, step, env) && now <= env.now
    ensures Current(cfg, React(cfg, s, step, env), env.now)
  {
    if step.Fleet? { FollowedCurrent(cfg, s.(states := Absorb(s.states, step.event, env.now)), step.event, env, now); }
  }

  /** Over every run: tick timer, resize hook, scroll region and painted row exist
      exactly while active, a repaint is pending only while active, and no change to
      the agents is lost: it is on the row, or a repaint is due at most one throttle
      interval after the last paint. */
  lemma {:induction false} Lifecycle(cfg: Config, boot: int, run: seq<Moment>)
    requires Possible(cfg, boot, run)
    ensures Tied(cfg, After(cfg, run)) && Current(cfg, After(cfg, run), Clock(boot, run))
  {
    if run == [] {
    } else {
      var init, last := run[..|run| - 1], run[|run| - 1];
      Lifecycle(cfg, boot, init);
      StepTied(cfg, After(cfg, init), last.step, last.env);
      StepCurrent(cfg, After(cfg, init), last.step, last.env, Clock(boot, init));
    }
  }

  predicate Restored(s: Pinned) {
    !s.active && !s.tick && !s.resizeHook && s.repaint == None && s.region == None && s.drawn == None
  }

  /** `stop` gives the terminal back, and nothing that is still pending takes it again. */
  lemma {:induction false} StopIsFinal(cfg: Config, boot: int, run: seq<Moment>, env: Env, rest: seq<Moment>)
    requires Possible(cfg, boot, run + [Moment(Stop, env)] + rest)
    ensures Restored(After(cfg, run + [Moment(Stop, env)] + rest))
    ensures !After(cfg, run + [Moment(Stop, env)] + rest).listening
  {
    var all := run + [Moment(Stop, env)] + rest;
    if rest == [] {
      assert all[..|all| - 1] == run;
      Lifecycle(cfg, boot, run);
    } else {
      assert all[..|all| - 1] == run + [Moment(Stop, env)] + rest[..|rest| - 1];
      StopIsFinal(cfg, boot, run, env, rest[..|rest| - 1]);
    }
  }

  // ----------------------------------------------------- the row's width

  predicate CleanEvent(e: Event) {
    && Whole(e.id)
    && (e.Spawned? && e.name.Some? ==> Whole(e.name.value))
    && (e.ToolExecuted? ==> Whole(e.tool))
    && (e.IterationSummary? && e.currentTool.Some? ==> Whole(e.currentTool.value))
  }

  predicate CleanRun(run: seq<Moment>) {
    run == [] || (CleanRun(run[..|run| - 1]) && (run[|run| - 1].step.Fleet? ==> CleanEvent(run[|run| - 1].step.event)))
  }

  predicate CleanStates(states: Agents) {
    states == [] || (WholeAgent(states[0].1) && CleanStates(states[1..]))
  }

  lemma {:induction false} CleanPut(states: Agents, id: string, a: Agent)
    requires CleanStates(states) && WholeAgent(a)
    ensures CleanStates(Put(states, id, a))
  {
    if states == [] || states[0].0 == id {
    } else {
      CleanPut(states[1..], id, a);
    }
  }

  lemma {:induction false} CleanGet(states: Agents, id: string)
    requires CleanStates(states)
    ensures Get(states, id).Some? ==> WholeAgent(Get(states, id).value)
  {
    if states == [] || states[0].0 == id {
    } else {
      CleanGet(states[1..], id);
    }
  }

  lemma {:induction false} CleanValues(states: Agents)
    requires CleanStates(states)
    ensures AllWhole(Values(states))
  {
    if states == [] {
    } else {
      CleanValues(states[1..]);
      assert forall i :: 0 < i < |states| ==> Values(states)[i] == Values(states[1..])[i - 1];
    }
  }

  lemma AbsorbClean(states: Agents, e: Event, now: int)
    requires CleanStates(states) && CleanEvent(e)
    ensures CleanStates(Absorb(states, e, now))
  {
    CleanGet(states, e.id);
    CleanPut(states, e.id, Changed(Ensured(states, e.id, NameIn(e), now), e, now));
  }

  /** Only a fleet event changes the agents; what is on the row was painted from the
      agents before or after the step. */
  lemma DrawnFrom(cfg: Config, s: Pinned, step: Step, env: Env)
    ensures var n := React(cfg, s, step, env);
      && n.states == (if step.Fleet? then Absorb(s.states, step.event, env.now) else s.states)
      && (n.drawn == None || n.drawn == s.drawn || n.drawn.value.states == n.states)
  {
    if step.Fleet? { FollowedDraws(cfg, s.(states := Absorb(s.states, step.event, env.now)), step.event, env); }
  }

  /** The agents are as before, and what is on the row was painted from them or was there. */
  predicate Draws(s: Pinned, n: Pinned) {
    n.states == s.states && (n.drawn == None || n.drawn == s.drawn || n.drawn.value.states == n.states)
  }

  lemma PaintedDraws(cfg: Config, s: Pinned, env: Env)
    ensures Draws(s, Painted(cfg, s, env)) && Draws(s, Scheduled(cfg, s, env)) && Draws(s, Activated(cfg, s, env))
  {
  }

  lemma FollowedDraws(cfg: Config, told: Pinned, e: Event, env: Env)
    ensures Draws(told, Followed(cfg, told, e, env))
  {
    PaintedDraws(cfg, told, env);
    PaintedDraws(cfg, Activated(cfg, told, env), env);
  }

  lemma {:induction false} StatesStayClean(cfg: Config, run: seq<Moment>)
    requires CleanRun(run)
    ensures var s := After(cfg, run); CleanStates(s.states) && (s.drawn.Some? ==> CleanStates(s.drawn.value.states))
  {
    if run == [] {
    } else {
      var init, last := run[..|run| - 1], run[|run| - 1];
      StatesStayClean(cfg, init);
      DrawnFrom(cfg, After(cfg, init), last.step, last.env);
      if last.step.Fleet? { AbsorbClean(After(cfg, init).states, last.step.event, last.env.now); }
    }
  }

  /** In every reachable state the reserved row shows a whole line, no wider than the
      terminal was when it was painted (or than 20). */
  lemma RowFits(cfg: Config, run: seq<Moment>, colour: bool, version: Option<string>)
    requires cfg.render == LineOf(colour, version) && CleanRun(run) && WholeVersion(version)
    ensures var s := After(cfg, run);
      s.drawn.Some? ==>
        Whole(RowText(cfg, s.drawn.value)) && |Visible(RowText(cfg, s.drawn.value))| <= Width(s.drawn.value.columns)
  {
    var s := After(cfg, run);
    StatesStayClean(cfg, run);
    if s.drawn.Some? && s.drawn.value.states != [] {
      var d := s.drawn.value;
      CleanValues(d.states);
      LineFits(colour, Values(d.states), d.at, d.columns, version);
    }
  }

  // ------------------------------------------------- idle means retracted?

  /** An active line has a running agent, or a retraction on its way. */
  predicate Covered(s: Pinned) { s.active ==> AnyRunning(s.states) || s.retracts > 0 }

  /** An event for a finished agent, with nothing running and no retraction pending. */
  predicate Reawakens(cfg: Config, s: Pinned, step: Step) {
    && cfg.tty && step.Fleet? && (step.event.Spawned? || step.event.ToolExecuted? || step.event.BudgetExtended?)
    && Has(s.states, step.event.id) && !AnyRunning(s.states) && s.retracts == 0
  }

  lemma {:induction false} PutRunning(states: Agents, id: string, a: Agent)
    ensures a.status == Running ==> AnyRunning(Put(states, id, a))
    ensures Get(states, id).Some? && a.status == Get(states, id).value.status ==>
              (AnyRunning(Put(states, id, a)) <==> AnyRunning(states))
  {
    if states == [] || states[0].0 == id {
    } else {
      PutRunning(states[1..], id, a);
    }
  }

  lemma RunningAfter(states: Agents, e: Event, now: int)
    requires !e.TaskCompleted?
    ensures AnyRunning(Absorb(states, e, now)) <==> AnyRunning(states) || !Has(states, e.id) || e.TaskStarted?
  {
    HasGet(states, e.id);
    PutRunning(states, e.id, Changed(Ensured(states, e.id, NameIn(e), now), e, now));
  }

  /** Exactly the reawakening events leave the line up with nothing running and no
      retraction pending; every other step keeps an idle fleet's line on its way out. */
  lemma CoveredStep(cfg: Config, s: Pinned, step: Step, env: Env)
    requires Tied(cfg, s) && Covered(s) && Enabled(s, step, env)
    ensures Covered(React(cfg, s, step, env)) <==> !Reawakens(cfg, s, step)
  {
    if step.Fleet? && !step.event.TaskCompleted? {
      RunningAfter(s.states, step.event, env.now);
    }
  }

  predicate NeverReawakens(cfg: Config, run: seq<Moment>) {
    run == [] ||
    (NeverReawakens(cfg, run[..|run| - 1]) && !Reawakens(cfg, After(cfg, run[..|run| - 1]), run[|run| - 1].step))
  }

  /** So in a run without such an event, once nothing runs and no retraction is pending
      the terminal has been given back. */
  lemma {:induction false} IdleMeansRetracted(cfg: Config, boot: int, run: seq<Moment>)
    requires Possible(cfg, boot, run) && NeverReawakens(cfg, run)
    ensures Covered(After(cfg, run))
    ensures var s := After(cfg, run); !AnyRunning(s.states) && s.retracts == 0 ==> Restored(s)
  {
    Lifecycle(cfg, boot, run);
    if run == [] {
    } else {
      var init, last := run[..|run| - 1], run[|run| - 1];
      IdleMeansRetracted(cfg, boot, init);
      Lifecycle(cfg, boot, init);
      CoveredStep(cfg, After(cfg, init), last.step, last.env);
    }
  }

  /** And such a run exists: a late tool report after the agent is done and the line
      retracted puts the line back, with nothing left to take it down. */
  lemma LateReportStaysUp(cfg: Config, id: string, tool: string, env: Env)
    requires cfg.tty
    ensures var run := [Moment(Fleet(Spawned(id, None)), env), Moment(Fleet(TaskCompleted(id, true, 1, 0)), env),
                        Moment(RetractDue, env), Moment(Fleet(ToolExecuted(id, tool)), env)];
      var s := After(cfg, run);
      Possible(cfg, env.now, run) && s.active && !AnyRunning(s.states) && s.retracts == 0
  {
    var spawn, done := Moment(Fleet(Spawned(id, None)), env), Moment(Fleet(TaskCompleted(id, true, 1, 0)), env);
    var retract, late := Moment(RetractDue, env), Moment(Fleet(ToolExecuted(id, tool)), env);
    var one, two, three := [spawn], [spawn, done], [spawn, done, retract];
    assert one + [done] == two && two + [retract] == three && three + [late] == [spawn, done, retract, late];
    FirstSpawn(cfg, id, env);
    OneMore(cfg, env.now, one, done);
    AgentDone(cfg, After(cfg, one), id, env);
    OneMore(cfg, env.now, two, retract);
    LineRetracted(cfg, After(cfg, two), id, env);
    OneMore(cfg, env.now, three, late);
    Reawakened(cfg, After(cfg, three), ToolExecuted(id, tool), env);
  }

  /** One agent, in the given state of the line. */
  predicate OneAgent(s: Pinned, id: string) { s.listening && |s.states| == 1 && s.states[0].0 == id }

  lemma FirstSpawn(cfg: Config, id: string, env: Env)
    requires cfg.tty
    ensures var run := [Moment(Fleet(Spawned(id, None)), env)]; var s := After(cfg, run);
      Possible(cfg, env.now, run) && Clock(env.now, run) == env.now && OneAgent(s, id) && s.active && s.retracts == 0
  {
    var spawn := Moment(Fleet(Spawned(id, None)), env);
    assert [] + [spawn] == [spawn];
    OneMore(cfg, env.now, [], spawn);
    FollowedWakes(cfg, STARTED.(states := Absorb([], Spawned(id, None), env.now)), Spawned(id, None), env);
  }

  lemma AgentDone(cfg: Config, s: Pinned, id: string, env: Env)
    requires cfg.tty && s.active && s.retracts == 0 && OneAgent(s, id)
    ensures var done := OnEvent(cfg, s, TaskCompleted(id, true, 1, 0), env);
      done.retracts == 1 && OneAgent(done, id) && !AnyRunning(done.states)
  {
    var told := s.(states := Absorb(s.states, TaskCompleted(id, true, 1, 0), env.now));
    assert |told.states| == 1 && told.states[0].0 == id && told.states[0].1.status == Done;
    assert told.states[1..] == [] && !AnyRunning(told.states);
  }

  lemma LineRetracted(cfg: Config, s: Pinned, id: string, env: Env)
    requires s.retracts == 1 && OneAgent(s, id) && !AnyRunning(s.states)
    ensures var idle := React(cfg, s, RetractDue, env);
      idle.retracts == 0 && OneAgent(idle, id) && !AnyRunning(idle.states) && Has(idle.states, id) && !idle.active
  {
  }

  lemma Reawakened(cfg: Config, s: Pinned, e: Event, env: Env)
    requires Reawakens(cfg, s, Fleet(e))
    ensures var n := OnEvent(cfg, s, e, env); n.active && !AnyRunning(n.states) && n.retracts == 0
  {
    RunningAfter(s.states, e, env.now);
    FollowedWakes(cfg, s.(states := Absorb(s.states, e, env.now)), e, env);
  }

  lemma FollowedWakes(cfg: Config, told: Pinned, e: Event, env: Env)
    requires cfg.tty && !e.IterationSummary? && !e.TaskCompleted?
    ensures var n := Followed(cfg, told, e, env); n.active && n.states == told.states && n.retracts == told.retracts
  {
  }

  lemma OneMore(cfg: Config, boot: int, run: seq<Moment>, m: Moment)
    ensures After(cfg, run + [m]) == React(cfg, After(cfg, run), m.step, m.env)
    ensures Possible(cfg, boot, run + [m]) <==>
            Possible(cfg, boot, run) && Enabled(After(cfg, run), m.step, m.env) && Clock(boot, run) <= m.env.now
  {
    assert (run + [m])[..|run|] == run;
  }

  // ----------------------------------------------------------- the class

  /** The object itself; `region` and `drawn` stand for what it has written to the
      terminal, the timers and hooks for what it has registered. */
  class StatusLine {
    const cfg: Config
    var states: Agents
    var active: bool
    var rows: int
    var repaint: Option<int>
    var tick: bool
    var resizeHook: bool
    var lastPaint: int
    var region: Option<int>
    var drawn: Option<Drawing>
    var retracts: nat
    var listening: bool
    var row: string

    /** The line written to the reserved row is the one its drawing stands for. */
    ghost predicate Valid()
      reads this
    {
      drawn.Some? ==> row == RowText(cfg, drawn.value)
    }

    ghost function Value(): Pinned
      reads this
    {
      Pinned(states, active, rows, repaint, tick, resizeHook, lastPaint, region, drawn, retracts, listening)
    }

    constructor (cfg: Config)
      ensures Valid() && this.cfg == cfg && Value() == STARTED
    {
      this.cfg := cfg;
      states, active, rows, repaint, tick, resizeHook := [], false, 0, None, false, false;
      lastPaint, region, drawn, retracts, listening := 0, None, None, 0, true;
      row := "";
    }

    method Paint(env: Env)
      requires Valid()
      modifies this`lastPaint, this`drawn, this`row
      ensures Valid() && Value() == Painted(cfg, old(Value()), env)
    {
      if !active || !cfg.tty { return; }
      lastPaint := env.now;
      row := cfg.render(Values(states), env.now, env.columns);
      drawn := Some(Drawing(states, env.now, env.columns));
    }

    method Activate(env: Env)
      requires Valid()
      modifies this
      ensures Valid() && Value() == Activated(cfg, old(Value()), env)
    {
      if active || !cfg.tty { return; }
      active := true;
      rows := RowsOf(env);
      region := Some(rows - 1);
      resizeHook := true;
      tick := true;
      Paint(env);
    }

    method Deactivate()
      requires Valid()
      modifies this
      ensures Valid() && Value() == Deactivated(cfg, old(Value()))
    {
      if !active { return; }
      active := false;
      if tick { tick := false; }
      if repaint.Some? { repaint := None; }
      resizeHook := false;
      if cfg.tty { region, drawn := None, None; }
    }

    method SchedulePaint(env: Env)
      requires Valid()
      modifies this
      ensures Valid() && Value() == Scheduled(cfg, old(Value()), env)
    {
      if !active { return; }
      var since := env.now - lastPaint;
      if since >= cfg.throttleMs {
        Paint(env);
        return;
      }
      if repaint.Some? { return; }
      repaint := Some(env.now + (cfg.throttleMs - since));
    }

    /** The rest of a handler, once the event is recorded. */
    method Follow(e: Event, env: Env)
      requires Valid()
      modifies this
      ensures Valid() && Value() == Followed(cfg, old(Value()), e, env)
    {
      if e.IterationSummary? {
        SchedulePaint(env);
      } else if e.TaskCompleted? {
        SchedulePaint(env);
        if !AnyRunning(states) { retracts := retracts + 1; }
      } else {
        Activate(env);
        SchedulePaint(env);
      }
    }

    method HandleEvent(e: Event, env: Env)
      requires Valid()
      modifies this
      ensures Valid() && Value() == React(cfg, old(Value()), Fleet(e), env)
    {
      states := Absorb(states, e, env.now);
      Follow(e, env);
    }

    method OnTick(env: Env)
      requires Valid()
      modifies this
      ensures Valid() && Value() == React(cfg, old(Value()), Tick, env)
    {
      Paint(env);
    }

    method OnResize(env: Env)
      requires Valid()
      modifies this
      ensures Valid() && Value() == React(cfg, old(Value()), Resize, env)
    {
      if active {
        rows := RowsOf(env);
        region := Some(rows - 1);
        Paint(env);
      }
    }

    method OnRepaintDue(env: Env)
      requires Valid()
      modifies this
      ensures Valid() && Value() == React(cfg, old(Value()), RepaintDue, env)
    {
      repaint := None;
      Paint(env);
    }

    method OnRetractDue(env: Env)
      requires Valid() && retracts > 0
      modifies this
      ensures Valid() && Value() == React(cfg, old(Value()), RetractDue, env)
    {
      retracts := retracts - 1;
      if !AnyRunning(states) { Deactivate(); }
    }

    method StopLine(env: Env)
      requires Valid()
      modifies this
      ensures Valid() && Value() == React(cfg, old(Value()), Stop, env)
    {
      listening := false;
      Deactivate();
    }
  }
}
