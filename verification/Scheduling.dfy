/**
 The executor's promise queues over the hosts they run on. A run starts only
 inside an action whose turn has come; nothing else here keeps two runs of a
 project apart, and the single run for each project that a host's steps
 presume is proved from the queues.
 */
module Scheduling {
  import opened Prelude
  import opened Wire
  import opened Journal
  import opened Evidence
  import opened World
  import opened Invariants
  import AtMostOnce
  import HostSteps
  import Outcomes
  import JournalRuns
  import Q = Queues

  /** The queue of one executor, the command of each action, and the actions whose run has begun. */
  datatype Schedule = Schedule(queue: Q.Queue, ids: seq<Uuid>, begun: set<nat>)

  const NOTHING := Schedule(Q.IDLE, [], {})

  // ----- the queue of one host -----

  function ProjectOf(h: Host, id: Uuid): string
    requires id in h.memory
  {
    h.memory[id].command.localProjectId
  }

  /** This action is running the run of this command. */
  predicate Runs(h: Host, s: Schedule, i: nat, id: Uuid) {
    && i < |s.queue.actions| == |s.ids| && s.ids[i] == id && i in s.begun && s.queue.actions[i].status == Q.Running
    && (id in h.memory ==> s.queue.actions[i].project == ProjectOf(h, id))
  }

  /** The queue is in order, and every run belongs to an action that is running. */
  ghost predicate Fits(h: Host, s: Schedule) {
    && Q.Inv(s.queue) && |s.ids| == |s.queue.actions|
    && forall id :: id in h.runs ==> exists i :: Runs(h, s, i, id)
  }

  /** The action's turn has come and its run has not begun. */
  predicate Ready(h: Host, s: Schedule, i: nat) {
    && i < |s.queue.actions| == |s.ids| && s.queue.actions[i].status == Q.Running && i !in s.begun
    && s.ids[i] in h.memory && s.queue.actions[i].project == ProjectOf(h, s.ids[i])
  }

  predicate AloneInProject(h: Host, id: Uuid)
    requires id in h.memory
  {
    forall k :: k in h.runs && k in h.memory ==> ProjectOf(h, k) != ProjectOf(h, id)
  }

  lemma OneRunning(q: Q.Queue, i: nat, j: nat)
    requires Q.Inv(q) && i < |q.actions| && j < |q.actions| && q.actions[i].project == q.actions[j].project
    requires q.actions[i].status == Q.Running && q.actions[j].status == Q.Running
    ensures i == j
  {
  }

  /** The queue keeps the runs of a project apart. */
  lemma ReadyIsAlone(h: Host, s: Schedule, j: nat)
    requires Fits(h, s) && Ready(h, s, j)
    ensures AloneInProject(h, s.ids[j]) && s.ids[j] !in h.runs
  {
    hide Q.Inv;
    forall k | k in h.runs && k in h.memory ensures ProjectOf(h, k) != ProjectOf(h, s.ids[j]) {
      var i :| Runs(h, s, i, k);
      if ProjectOf(h, k) == ProjectOf(h, s.ids[j]) { OneRunning(s.queue, i, j); }
    }
  }

  // ----- the executors and the world -----

  datatype System = System(world: World, schedules: map<Uuid, Schedule>)

  const IDLE := System(INITIAL, map[])

  function ScheduleOf(y: System, agent: Uuid): Schedule {
    if agent in y.schedules then y.schedules[agent] else NOTHING
  }

  datatype Event =
    | Do(step: Step)
    | Ask(agent: Uuid, id: Uuid)
    | Take(agent: Uuid, i: nat)
    | Start(agent: Uuid, i: nat, session: Uuid, request: Uuid)
    | Settle(agent: Uuid, i: nat)
    | Forget(agent: Uuid, i: nat)
    | Restart(agent: Uuid, image: Image)

  /** Whether a run starts is up to the queue alone. */
  ghost predicate Happens(y: System, e: Event) {
    var w := y.world;
    match e
    case Do(step) => !step.StartRun? && !step.Crash? && Enabled(w, step)
    case Ask(agent, id) => agent in w.hosts && id in w.hosts[agent].memory
    case Take(agent, i) => Q.Enabled(ScheduleOf(y, agent).queue, Q.Start(i))
    case Start(agent, i, _, request) =>
      && agent in w.hosts && request !in w.requests && Ready(w.hosts[agent], ScheduleOf(y, agent), i)
      && !Finished(w.hosts[agent].memory[ScheduleOf(y, agent).ids[i]])
    case Settle(agent, i) =>
      && agent in w.hosts && Q.Enabled(ScheduleOf(y, agent).queue, Q.Settle(i))
      && i < |ScheduleOf(y, agent).ids| && ScheduleOf(y, agent).ids[i] !in w.hosts[agent].runs
    case Forget(agent, i) => Q.Enabled(ScheduleOf(y, agent).queue, Q.Forget(i))
    case Restart(agent, image) => Enabled(w, Crash(agent, image))
  }

  function Queued(y: System, agent: Uuid, s: Schedule): System { y.(schedules := y.schedules[agent := s]) }

  ghost function After(y: System, e: Event): System
    requires Happens(y, e)
  {
    match e
    case Do(step) => y.(world := Next(y.world, step))
    case Ask(agent, id) =>
      var s := ScheduleOf(y, agent);
      Queued(y, agent,
             s.(queue := Q.Next(s.queue, Q.Request(ProjectOf(y.world.hosts[agent], id))), ids := s.ids + [id]))
    case Take(agent, i) =>
      var s := ScheduleOf(y, agent);
      Queued(y, agent, s.(queue := Q.Next(s.queue, Q.Start(i))))
    case Start(agent, i, session, request) =>
      var s := ScheduleOf(y, agent);
      Queued(y.(world := Started(y.world, agent, s.ids[i], session, request)), agent, s.(begun := s.begun + {i}))
    case Settle(agent, i) =>
      var s := ScheduleOf(y, agent);
      Queued(y, agent, s.(queue := Q.Next(s.queue, Q.Settle(i))))
    case Forget(agent, i) =>
      var s := ScheduleOf(y, agent);
      Queued(y, agent, s.(queue := Q.Next(s.queue, Q.Forget(i))))
    case Restart(agent, image) => Queued(y.(world := Next(y.world, Crash(agent, image))), agent, NOTHING)
  }

  /** The claim request goes out and its run begins. */
  function Started(w: World, agent: Uuid, id: Uuid, session: Uuid, request: Uuid): World
    requires agent in w.hosts && id in w.hosts[agent].memory
  {
    var h := w.hosts[agent];
    WithHost(w, agent, SetRun(h, id, Some(Claiming(request, h.memory[id]))))
      .(requests := w.requests[request := ClaimMessage(Identity(h.environmentId, agent, session), id)])
  }

  // ----- what every event keeps -----

  ghost predicate SystemInv(y: System) {
    && Inv(y.world)
    && (forall agent ::
        Q.Inv(ScheduleOf(y, agent).queue) && |ScheduleOf(y, agent).ids| == |ScheduleOf(y, agent).queue.actions|)
    && (forall agent :: agent in y.world.hosts ==> Fits(y.world.hosts[agent], ScheduleOf(y, agent)))
  }

  /** What the presumed guard of a run's start adds is already so. */
  lemma StartIsEnabled(y: System, e: Event)
    requires SystemInv(y) && Happens(y, e) && e.Start?
    ensures var step := StartRun(e.agent, ScheduleOf(y, e.agent).ids[e.i], e.session, e.request);
            Enabled(y.world, step) && After(y, e).world == Next(y.world, step)
  {
    hide Inv, Fits, Finished;
    ReadyIsAlone(y.world.hosts[e.agent], ScheduleOf(y, e.agent), e.i);
  }

  /** Runs only end, and those that go on keep their project. */
  ghost predicate OnlyEnds(h: Host, g: Host) {
    forall id :: id in g.runs ==>
      id in h.runs && id in h.memory && (id in g.memory ==> ProjectOf(g, id) == ProjectOf(h, id))
  }

  lemma FitsKept(h: Host, g: Host, s: Schedule)
    requires Fits(h, s) && OnlyEnds(h, g)
    ensures Fits(g, s)
  {
    hide Q.Inv;
    forall id | id in g.runs ensures exists i :: Runs(g, s, i, id) {
      var i :| Runs(h, s, i, id);
      assert Runs(g, s, i, id);
    }
  }

  lemma MovesEndRuns(h: Host, g: Host, moved: Uuid)
    requires JournalRuns.Moves(h, g, moved) && moved in h.runs
    ensures g.runs.Keys <= h.runs.Keys
  {
    hide HostSteps.Grown;
    forall k | k in g.runs ensures k in h.runs {
      if k != moved { assert Framed(h, g, k); }
    }
  }

  lemma RunAtHand(w: World, s: Step)
    requires Enabled(w, s) && Outcomes.HostStep(s) && !s.StartRun? && !s.Receive? && !s.PruneJournal? && !s.Crash?
    ensures s.agent in w.hosts && s.id in w.hosts[s.agent].runs
  {
    hide Rests, RestsOnTarget, ProperResult, MustRetire, Inspectable;
  }

  lemma JournalStepsLeaveRuns(w: World, s: Step)
    requires Enabled(w, s) && (s.Receive? || s.PruneJournal?)
    ensures Next(w, s).hosts[s.agent].runs == w.hosts[s.agent].runs
  {
  }

  /** No step but the start of a run adds one. */
  lemma NoNewRuns(w: World, s: Step, agent: Uuid)
    requires Inv(w) && Enabled(w, s) && !s.StartRun? && !s.Crash? && agent in w.hosts && agent in Next(w, s).hosts
    ensures Next(w, s).hosts[agent].runs.Keys <= w.hosts[agent].runs.Keys
  {
    hide Inv, Enabled, Next, JournalRuns.Moves;
    if !(Outcomes.HostStep(s) && Outcomes.About(s).0 == agent) {
      Outcomes.OtherHostStays(w, s, agent);
      JournalRuns.HostStays(w, s, agent);
    } else if s.Receive? || s.PruneJournal? {
      JournalStepsLeaveRuns(w, s);
    } else {
      RunAtHand(w, s);
      if Outcomes.WriteStep(s) { JournalRuns.WriteStepMoves(w, s); } else { JournalRuns.RunStepMoves(w, s); }
      MovesEndRuns(w.hosts[agent], Next(w, s).hosts[agent], s.id);
    }
  }

  /** Memory shows a command with the project the history knows. */
  lemma ProjectIsKnown(w: World, agent: Uuid, id: Uuid)
    requires Inv(w) && agent in w.hosts && id in w.hosts[agent].memory
    ensures id in w.history && ProjectOf(w.hosts[agent], id) == w.history[id].command.localProjectId
  {
    hide Inv;
    HostSteps.Inside(w, agent, id);
    assert w.hosts[agent].memory in Images(w.hosts[agent]);
    assert EntryInv(w, agent, id, w.hosts[agent].memory[id]);
  }

  lemma RunIsReceived(w: World, agent: Uuid, id: Uuid)
    requires Inv(w) && agent in w.hosts && id in w.hosts[agent].runs
    ensures id in w.hosts[agent].memory
  {
    hide Inv;
    HostSteps.Inside(w, agent, id);
  }

  lemma StepOnlyEnds(w: World, s: Step, agent: Uuid)
    requires Inv(w) && Enabled(w, s) && !s.StartRun? && !s.Crash? && agent in w.hosts && agent in Next(w, s).hosts
    ensures OnlyEnds(w.hosts[agent], Next(w, s).hosts[agent])
  {
    hide Inv, Enabled, Next;
    NoNewRuns(w, s, agent);
    AtMostOnce.NextKeepsInv(w, s);
    var (h, g) := (w.hosts[agent], Next(w, s).hosts[agent]);
    forall id | id in g.runs
      ensures id in h.runs && id in h.memory && (id in g.memory ==> ProjectOf(g, id) == ProjectOf(h, id))
    {
      RunIsReceived(w, agent, id);
      ProjectIsKnown(w, agent, id);
      AtMostOnce.NextEvolves(w, s, id);
      if id in g.memory { ProjectIsKnown(Next(w, s), agent, id); }
    }
  }

  lemma NewHostIsIdle(w: World, s: Step, agent: Uuid)
    requires Enabled(w, s) && agent in Next(w, s).hosts && agent !in w.hosts
    ensures Next(w, s).hosts[agent].runs == map[]
  {
    hide Enabled, Next;
    if s.Enroll? && s.agent == agent {
      Outcomes.EnrollAddsHost(w, s);
    } else if Outcomes.HostStep(s) {
      Outcomes.HostStepIsLocal(w, s);
    } else {
      Outcomes.OtherHostStays(w, s, agent);
    }
  }

  lemma StepKeeps(y: System, e: Event)
    requires SystemInv(y) && Happens(y, e) && e.Do?
    ensures SystemInv(After(y, e))
  {
    hide Inv, Enabled, Next, Fits, Q.Inv;
    var (w, v) := (y.world, After(y, e).world);
    AtMostOnce.NextKeepsInv(w, e.step);
    assert forall agent :: ScheduleOf(After(y, e), agent) == ScheduleOf(y, agent);
    forall agent | agent in v.hosts ensures Fits(v.hosts[agent], ScheduleOf(y, agent)) {
      if agent in w.hosts {
        StepOnlyEnds(w, e.step, agent);
        FitsKept(w.hosts[agent], v.hosts[agent], ScheduleOf(y, agent));
      } else {
        NewHostIsIdle(w, e.step, agent);
        IdleFits(v.hosts[agent], ScheduleOf(y, agent));
      }
    }
  }

  lemma IdleFits(h: Host, s: Schedule)
    requires h.runs == map[] && Q.Inv(s.queue) && |s.ids| == |s.queue.actions|
    ensures Fits(h, s)
  {
  }

  // ----- events of one queue -----

  /** Only this executor's queue moved, and its runs keep their actions. */
  lemma QueueKeeps(y: System, agent: Uuid, s: Schedule)
    requires SystemInv(y) && Q.Inv(s.queue) && |s.ids| == |s.queue.actions|
    requires agent in y.world.hosts ==> Fits(y.world.hosts[agent], s)
    ensures SystemInv(Queued(y, agent, s))
  {
    hide Inv, Fits, Q.Inv;
    assert forall other :: ScheduleOf(Queued(y, agent, s), other) == if other == agent then s else ScheduleOf(y, other);
  }

  /** The action of every run stays where it is and goes on running. */
  lemma ActionsKept(h: Host, s: Schedule, t: Schedule)
    requires Fits(h, s) && Q.Inv(t.queue) && |t.ids| == |t.queue.actions|
    requires forall i, id :: id in h.runs && Runs(h, s, i, id) ==> Runs(h, t, i, id)
    ensures Fits(h, t)
  {
    hide Q.Inv;
    forall id | id in h.runs ensures exists i :: Runs(h, t, i, id) {
      var i :| Runs(h, s, i, id);
      assert Runs(h, t, i, id);
    }
  }

  lemma QueueEventKeeps(y: System, e: Event)
    requires SystemInv(y) && Happens(y, e) && (e.Ask? || e.Take? || e.Settle? || e.Forget?)
    ensures SystemInv(After(y, e))
  {
    hide Inv, Fits, Q.Inv;
    var s := ScheduleOf(y, e.agent);
    var q := if e.Ask? then Q.Request(ProjectOf(y.world.hosts[e.agent], e.id)) else if e.Take? then Q.Start(e.i)
             else if e.Settle? then Q.Settle(e.i) else Q.Forget(e.i);
    var t := s.(queue := Q.Next(s.queue, q), ids := if e.Ask? then s.ids + [e.id] else s.ids);
    Q.NextKeepsInv(s.queue, q);
    if e.agent in y.world.hosts { ActionsKept(y.world.hosts[e.agent], s, t); }
    QueueKeeps(y, e.agent, t);
  }

  lemma StartKeeps(y: System, e: Event)
    requires SystemInv(y) && Happens(y, e) && e.Start?
    ensures SystemInv(After(y, e))
  {
    hide Inv, Enabled, Next, Fits, Q.Inv, Finished;
    var s := ScheduleOf(y, e.agent);
    var (w, v) := (y.world, After(y, e).world);
    StartIsEnabled(y, e);
    AtMostOnce.NextKeepsInv(w, StartRun(e.agent, s.ids[e.i], e.session, e.request));
    BegunFits(w.hosts[e.agent], s, e.i, Claiming(e.request, w.hosts[e.agent].memory[s.ids[e.i]]));
    var t := s.(begun := s.begun + {e.i});
    assert forall other :: ScheduleOf(After(y, e), other) == if other == e.agent then t else ScheduleOf(y, other);
  }

  lemma BegunFits(h: Host, s: Schedule, i: nat, run: Run)
    requires Fits(h, s) && Ready(h, s, i)
    ensures Fits(SetRun(h, s.ids[i], Some(run)), s.(begun := s.begun + {i}))
  {
    hide Q.Inv;
    var (g, t) := (SetRun(h, s.ids[i], Some(run)), s.(begun := s.begun + {i}));
    assert Runs(g, t, i, s.ids[i]);
    forall id | id in g.runs ensures exists k :: Runs(g, t, k, id) {
      if id != s.ids[i] {
        var k :| Runs(h, s, k, id);
        assert Runs(g, t, k, id);
      }
    }
  }

  lemma RestartKeeps(y: System, e: Event)
    requires SystemInv(y) && Happens(y, e) && e.Restart?
    ensures SystemInv(After(y, e))
  {
    hide Inv, Fits, Q.Inv;
    var step := Crash(e.agent, e.image);
    AtMostOnce.NextKeepsInv(y.world, step);
    NothingInv();
    IdleFits(Next(y.world, step).hosts[e.agent], NOTHING);
    assert forall other :: ScheduleOf(After(y, e), other) == if other == e.agent then NOTHING else ScheduleOf(y, other);
  }

  lemma NothingInv()
    ensures Q.Inv(NOTHING.queue)
  {
  }

  lemma EventKeeps(y: System, e: Event)
    requires SystemInv(y) && Happens(y, e)
    ensures SystemInv(After(y, e))
  {
    hide SystemInv, Happens, After;
    if e.Do? {
      StepKeeps(y, e);
    } else if e.Start? {
      StartKeeps(y, e);
    } else if e.Restart? {
      RestartKeeps(y, e);
    } else {
      QueueEventKeeps(y, e);
    }
  }

  // ----- main results -----

  ghost predicate Operation(systems: seq<System>, events: seq<Event>) {
    && |systems| == |events| + 1 && systems[0] == IDLE
    && forall k :: 0 <= k < |events| ==>
       Happens(systems[k], events[k]) && systems[k + 1] == After(systems[k], events[k])
  }

  lemma {:induction false} OperationKeepsInv(systems: seq<System>, events: seq<Event>, k: nat)
    requires Operation(systems, events) && k < |systems|
    ensures SystemInv(systems[k])
  {
    hide SystemInv, Happens, After;
    if k == 0 {
      IdleInv();
    } else {
      OperationKeepsInv(systems, events, k - 1);
      assert Happens(systems[k - 1], events[k - 1]) && systems[k] == After(systems[k - 1], events[k - 1]);
      EventKeeps(systems[k - 1], events[k - 1]);
    }
  }

  lemma IdleInv()
    ensures SystemInv(IDLE)
  {
    hide Inv;
    AtMostOnce.InitialInv();
    NothingInv();
  }

  /** The step of the world behind an event, if it is more than the queue's own. */
  ghost function Behind(y: System, e: Event): Option<Step>
    requires Happens(y, e)
  {
    match e
    case Do(step) => Some(step)
    case Start(agent, i, session, request) => Some(StartRun(agent, ScheduleOf(y, agent).ids[i], session, request))
    case Restart(agent, image) => Some(Crash(agent, image))
    case _ => None
  }

  lemma EventSteps(y: System, e: Event)
    requires SystemInv(y) && Happens(y, e)
    ensures match Behind(y, e)
            case Some(step) => Enabled(y.world, step) && After(y, e).world == Next(y.world, step)
            case None => After(y, e).world == y.world
  {
    hide Inv, Enabled, Next, Fits, Q.Inv, Finished;
    if e.Start? { StartIsEnabled(y, e); }
  }

  lemma OneMoreStep(worlds: seq<World>, steps: seq<Step>, s: Step)
    requires Execution(worlds, steps) && Enabled(worlds[|steps|], s)
    ensures Execution(worlds + [Next(worlds[|steps|], s)], steps + [s])
  {
    hide Enabled, Next;
    var (more, further) := (worlds + [Next(worlds[|steps|], s)], steps + [s]);
    forall k | 0 <= k < |further| ensures Enabled(more[k], further[k]) && more[k + 1] == Next(more[k], further[k]) {
      if k < |steps| { assert more[k] == worlds[k] && more[k + 1] == worlds[k + 1] && further[k] == steps[k]; }
    }
  }

  /** With only the queues to order runs, whatever the executors and the world do is an
      execution in which no project ever has two runs at once on a host. */
  lemma {:induction false} QueuesRefineExecutions(systems: seq<System>, events: seq<Event>, k: nat)
    returns (worlds: seq<World>, steps: seq<Step>)
    requires Operation(systems, events) && k < |systems|
    ensures Execution(worlds, steps) && worlds[|steps|] == systems[k].world
  {
    hide SystemInv, Happens, After, Enabled, Next;
    if k == 0 {
      worlds, steps := [INITIAL], [];
    } else {
      worlds, steps := QueuesRefineExecutions(systems, events, k - 1);
      var (y, e) := (systems[k - 1], events[k - 1]);
      assert Happens(y, e) && systems[k] == After(y, e);
      OperationKeepsInv(systems, events, k - 1);
      EventSteps(y, e);
      if Behind(y, e).Some? {
        var s := Behind(y, e).value;
        OneMoreStep(worlds, steps, s);
        worlds, steps := worlds + [Next(worlds[|steps|], s)], steps + [s];
      }
    }
  }

  /** At no time do two commands of a project run on the same host. */
  lemma OneRunForEachProject(systems: seq<System>, events: seq<Event>, k: nat, agent: Uuid, a: Uuid, b: Uuid)
    requires Operation(systems, events) && k < |systems| && agent in systems[k].world.hosts
    requires var h := systems[k].world.hosts[agent]; a in h.runs && b in h.runs && a != b
    ensures var h := systems[k].world.hosts[agent];
            a in h.memory && b in h.memory && ProjectOf(h, a) != ProjectOf(h, b)
  {
    hide Inv, Q.Inv;
    OperationKeepsInv(systems, events, k);
    var (h, s) := (systems[k].world.hosts[agent], ScheduleOf(systems[k], agent));
    RunIsReceived(systems[k].world, agent, a);
    RunIsReceived(systems[k].world, agent, b);
    var i :| Runs(h, s, i, a);
    var j :| Runs(h, s, j, b);
    if ProjectOf(h, a) == ProjectOf(h, b) { OneRunning(s.queue, i, j); }
  }
}
