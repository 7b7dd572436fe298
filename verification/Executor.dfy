/**
 The agent's executor, one run of a command between two waits on the network.
 Every piece is proved to take exactly the steps of the transition system, so
 what holds of every execution holds of the executor.
 */
module Executor {
  import opened Prelude
  import opened Wire
  import opened Journal
  import opened Evidence
  import E = Journal
  import J = CommandJournal
  import L = Lifecycle
  import S = Scheduling
  import W = World
  import Json

  // ----- following the transition system -----

  /** Each step is enabled where it is taken and leads to the next world. */
  ghost predicate Path(worlds: seq<W.World>, steps: seq<W.Step>) {
    && |worlds| == |steps| + 1
    && forall k :: 0 <= k < |steps| ==> W.Enabled(worlds[k], steps[k]) && worlds[k + 1] == W.Next(worlds[k], steps[k])
  }

  lemma PathJoin(worlds: seq<W.World>, steps: seq<W.Step>, more: seq<W.World>, further: seq<W.Step>)
    requires Path(worlds, steps) && Path(more, further) && more[0] == worlds[|steps|]
    ensures Path(worlds + more[1..], steps + further)
    ensures (worlds + more[1..])[|steps + further|] == more[|further|]
  {
    hide W.Enabled, W.Next;
    var (ws, ss) := (worlds + more[1..], steps + further);
    forall k | 0 <= k < |ss| ensures W.Enabled(ws[k], ss[k]) && ws[k + 1] == W.Next(ws[k], ss[k]) {
      if k < |steps| {
        assert W.Enabled(worlds[k], steps[k]);
      } else {
        assert W.Enabled(more[k - |steps|], further[k - |steps|]);
      }
    }
  }

  lemma PathOf(w: W.World, s: W.Step)
    requires W.Enabled(w, s)
    ensures Path([w, W.Next(w, s)], [s])
  {
  }

  /** What an executor does continues an execution to an execution. */
  lemma PathExtendsExecution(worlds: seq<W.World>, steps: seq<W.Step>, more: seq<W.World>, further: seq<W.Step>)
    requires W.Execution(worlds, steps) && Path(more, further) && more[0] == worlds[|steps|]
    ensures W.Execution(worlds + more[1..], steps + further)
  {
    hide W.Enabled, W.Next;
    PathJoin(worlds, steps, more, further);
  }

  /** The run of a command on a host, if there is one. */
  function RunOf(w: W.World, agent: Uuid, id: Uuid): Option<W.Run> {
    if agent in w.hosts && id in w.hosts[agent].runs then Some(w.hosts[agent].runs[id]) else None
  }

  /** A write changes memory and disk alike, whatever runs there are. */
  lemma WriteParts(
    h: W.Host, g: W.Host, id: Uuid, change: Option<Entry>, io: W.Io, done: Option<W.Run>, thrown: Option<W.Run>)
    requires g.memory == h.memory && g.disk == h.disk && g.environmentId == h.environmentId
    ensures var (a, b) := (W.Write(h, id, change, io, done, thrown), W.Write(g, id, change, io, None, None));
            && a.memory == b.memory && a.disk == b.disk && a.environmentId == b.environmentId
            && h.memory.Keys <= a.memory.Keys
            && (id in a.runs <==> (if J.Written(change, io) then done else thrown).Some?)
            && (id in a.runs ==> a.runs[id] == (if J.Written(change, io) then done else thrown).value)
  {
  }

  lemma SavedIsKept(h: W.Host, id: Uuid, result: CommandResult, io: W.Io, done: Option<W.Run>, thrown: Option<W.Run>)
    requires id in h.memory && J.Written(SaveResult(h.memory[id], result), io)
    ensures var g := W.Write(h, id, SaveResult(h.memory[id], result), io, done, thrown);
            id in g.memory && g.memory[id].result == Some(result)
  {
  }

  /** The entry that a marker write asks for. */
  function Marker(e: Entry, at: int): Option<Entry> {
    var change := BeginEffect(e, at);
    if change.Some? then Some(change.value.0) else None
  }

  lemma ClaimedEntry(h: W.Host, id: Uuid, record: Record, io: W.Io)
    requires id in h.memory
    ensures var g := W.Write(h, id, RecordClaim(h.memory[id], record), io, None, None);
            id in g.memory
            && g.memory[id] == if J.Written(RecordClaim(h.memory[id], record), io)
                               then h.memory[id].(claim := Some(record)) else h.memory[id]
  {
  }

  lemma BegunEntry(h: W.Host, id: Uuid, at: int, io: W.Io)
    requires id in h.memory
    ensures var g := W.Write(h, id, Marker(h.memory[id], at), io, None, None);
            && id in g.memory
            && (h.memory[id].effectStartedAt.None? && h.memory[id].result.None? ==>
                  g.memory[id] == if J.Written(Marker(h.memory[id], at), io)
                                  then h.memory[id].(effectStartedAt := Some(at)) else h.memory[id])
  {
  }

  lemma TargetedEntry(h: W.Host, id: Uuid, target: StopTarget, io: W.Io)
    requires id in h.memory && J.Written(PersistStopTarget(h.memory[id], target), io)
    ensures var g := W.Write(h, id, PersistStopTarget(h.memory[id], target), io, None, None);
            id in g.memory && g.memory[id].stopTarget == Some(target) && g.memory[id].command == h.memory[id].command
  {
  }

  // ----- the steps of a run -----

  lemma Starts(w: W.World, agent: Uuid, id: Uuid, session: Uuid, request: Uuid)
    requires agent in w.hosts && request !in w.requests
    requires id in w.hosts[agent].memory && id !in w.hosts[agent].runs && !Finished(w.hosts[agent].memory[id])
    requires S.AloneInProject(w.hosts[agent], id)
    ensures var s := W.StartRun(agent, id, session, request);
            var h := w.hosts[agent];
            W.Enabled(w, s)
            && W.Next(w, s)
               == W.WithHost(w, agent, W.SetRun(h, id, Some(W.Claiming(request, h.memory[id]))))
                  .(requests := w.requests[request := W.ClaimMessage(Identity(h.environmentId, agent, session), id)])
  {
  }

  lemma FinishedMeans(e: Entry)
    ensures Finished(e)
            <==> (e.acknowledged && !(e.result.Some? && e.result.value.state == Unknown)) || e.retiredAt.Some?
  {
  }

  lemma TakesExpiry(w: W.World, agent: Uuid, id: Uuid, at: int, io: W.Io, request: Uuid, seen: Entry)
    requires RunOf(w, agent, id) == Some(W.Claiming(request, seen)) && id in w.hosts[agent].memory
    requires (request, W.DeadlineElapsed) in w.answers
    ensures var s := W.TakeExpiry(agent, id, at, io);
            W.Enabled(w, s) && W.Next(w, s) == W.WithHost(w, agent, W.ExpiryTaken(w.hosts[agent], id, at, io))
  {
  }

  lemma GivesUp(w: W.World, agent: Uuid, id: Uuid)
    requires RunOf(w, agent, id).Some? && id in w.hosts[agent].memory
    requires RunOf(w, agent, id).value.Claiming? || RunOf(w, agent, id).value.Publishing?
    ensures var s := W.GiveUp(agent, id);
            W.Enabled(w, s) && W.Next(w, s) == W.WithHost(w, agent, W.SetRun(w.hosts[agent], id, None))
  {
  }

  lemma TakesClaim(w: W.World, agent: Uuid, id: Uuid, record: Record, io: W.Io, request: Uuid, seen: Entry)
    requires RunOf(w, agent, id) == Some(W.Claiming(request, seen)) && id in w.hosts[agent].memory
    requires (request, W.Granted(record)) in w.answers
    ensures var s := W.TakeClaim(agent, id, record, io);
            W.Enabled(w, s) && W.Next(w, s) == W.WithHost(w, agent, W.ClaimTaken(w.hosts[agent], id, record, io))
  {
  }

  predicate DecidingOn(w: W.World, agent: Uuid, id: Uuid, record: Record) {
    RunOf(w, agent, id) == Some(W.Deciding(record)) && id in w.hosts[agent].memory
  }

  lemma Retires(w: W.World, agent: Uuid, id: Uuid, record: Record, at: int, io: W.Io)
    requires DecidingOn(w, agent, id, record) && W.MustRetire(w.hosts[agent].memory[id], record)
    ensures var s := W.RetireSettled(agent, id, at, io);
            W.Enabled(w, s)
            && W.Next(w, s)
               == W.WithHost(w, agent,
                             W.Write(w.hosts[agent], id, Some(Retire(w.hosts[agent].memory[id], at)), io, None, None))
  {
  }

  lemma Keeps(w: W.World, agent: Uuid, id: Uuid, record: Record)
    requires DecidingOn(w, agent, id, record) && !W.MustRetire(w.hosts[agent].memory[id], record)
    requires w.hosts[agent].memory[id].result.Some?
    ensures var s := W.KeepResult(agent, id);
            W.Enabled(w, s) && W.Next(w, s) == W.WithHost(w, agent, W.SetRun(w.hosts[agent], id, Some(W.Saved)))
  {
  }

  lemma SavesResult(w: W.World, s: W.Step)
    requires W.Saves(s) && W.Enabled(w, s)
    ensures var h := w.hosts[s.agent];
            && s.agent in w.hosts && s.id in h.memory
            && W.Next(w, s)
               == W.WithHost(w, s.agent,
                             W.Write(h, s.id, SaveResult(h.memory[s.id], s.result), s.io, Some(W.Saved), None))
  {
  }

  lemma Begins(w: W.World, agent: Uuid, id: Uuid, record: Record, at: int, io: W.Io)
    requires DecidingOn(w, agent, id, record) && !W.MustRetire(w.hosts[agent].memory[id], record)
             && record.state == Executing
    requires w.hosts[agent].memory[id].result.None? && w.hosts[agent].memory[id].effectStartedAt.None?
    ensures var s := W.Begin(agent, id, at, io);
            W.Enabled(w, s) && W.Next(w, s) == W.WithHost(w, agent, W.EffectBegun(w.hosts[agent], id, at, io))
  {
  }

  lemma Invokes(w: W.World, agent: Uuid, id: Uuid)
    requires RunOf(w, agent, id) == Some(W.Begun) && id in w.hosts[agent].memory
    ensures W.Enabled(w, W.Invoke(agent, id))
    ensures W.Next(w, W.Invoke(agent, id))
            == W.WithHost(w, agent, W.SetRun(w.hosts[agent], id, Some(W.Invoked)))
               .(invocations := w.invocations[id := W.Count(w.invocations, id) + 1])
  {
  }

  lemma SpawnsOnce(w: W.World, agent: Uuid, id: Uuid)
    requires RunOf(w, agent, id) == Some(W.Invoked) && id in w.hosts[agent].memory
    requires w.hosts[agent].memory[id].command.operation == Start
    ensures W.Enabled(w, W.Spawn(agent, id))
    ensures W.Next(w, W.Spawn(agent, id))
            == W.WithHost(w, agent, W.SetRun(w.hosts[agent], id, Some(W.Driven)))
               .(spawns := w.spawns[id := W.Count(w.spawns, id) + 1])
  {
  }

  lemma PersistsTarget(w: W.World, agent: Uuid, id: Uuid, target: StopTarget, io: W.Io)
    requires RunOf(w, agent, id) == Some(W.Invoked) && id in w.hosts[agent].memory
    requires w.hosts[agent].memory[id].command.operation == Stop
    ensures var s := W.PersistTarget(agent, id, target, io);
            var h := w.hosts[agent];
            W.Enabled(w, s)
            && W.Next(w, s)
               == W.WithHost(w, agent,
                             W.Write(h, id, PersistStopTarget(h.memory[id], target), io, Some(W.Targeted(target)),
                                     Some(W.Broken)))
  {
  }

  lemma SignalsTarget(w: W.World, agent: Uuid, id: Uuid, target: StopTarget)
    requires RunOf(w, agent, id) == Some(W.Targeted(target)) && id in w.hosts[agent].memory
    ensures W.Enabled(w, W.Signal(agent, id))
    ensures W.Next(w, W.Signal(agent, id))
            == W.WithHost(w, agent, W.SetRun(w.hosts[agent], id, Some(W.Driven)))
               .(signals := w.signals[id := W.Signals(w, id) + [target]])
  {
  }

  lemma SendsResult(w: W.World, agent: Uuid, id: Uuid, session: Uuid, request: Uuid)
    requires RunOf(w, agent, id) == Some(W.Saved) && id in w.hosts[agent].memory && request !in w.requests
    requires w.hosts[agent].memory[id].result.Some? && !w.hosts[agent].memory[id].acknowledged
    ensures var s := W.SendResult(agent, id, session, request);
            var h := w.hosts[agent];
            W.Enabled(w, s)
            && W.Next(w, s)
               == W.WithHost(w, agent, W.SetRun(h, id, Some(W.Publishing(request))))
                  .(requests :=
                    w.requests[request :=
                               W.ResultMessage(Identity(h.environmentId, agent, session), h.memory[id].result.value)])
  {
  }

  lemma Concludes(w: W.World, agent: Uuid, id: Uuid)
    requires RunOf(w, agent, id) == Some(W.Saved) && id in w.hosts[agent].memory
             && w.hosts[agent].memory[id].acknowledged
    ensures W.Enabled(w, W.Conclude(agent, id))
    ensures W.Next(w, W.Conclude(agent, id)) == W.WithHost(w, agent, W.SetRun(w.hosts[agent], id, None))
  {
  }

  lemma TakesReceipt(w: W.World, agent: Uuid, id: Uuid, at: int, io: W.Io, request: Uuid)
    requires RunOf(w, agent, id) == Some(W.Publishing(request)) && id in w.hosts[agent].memory
    requires (request, W.Received) in w.answers
    ensures var s := W.TakeReceipt(agent, id, at, io);
            var h := w.hosts[agent];
            W.Enabled(w, s)
            && W.Next(w, s) == W.WithHost(w, agent, W.Write(h, id, Acknowledge(h.memory[id], at), io, None, None))
  {
  }

  // ----- results -----

  /** `hex` prints a digest; `message` words the diagnostic. */
  function MakeResult(
    id: Uuid, outcome: L.Outcome, hex: Digest -> Json.Text, message: string, observedAt: int): CommandResult {
    CommandResult(
      id, outcome.state, observedAt, EvidenceJson(outcome.state, outcome.process, hex),
      if outcome.diagnostic.Some? then Some(Diagnostic(outcome.diagnostic.value, message)) else None)
  }

  /** What is known when a call throws or permission is gone. */
  function UnknownOutcome(observedAt: Json.Text): (outcome: L.Outcome)
    ensures outcome.state == Unknown
  {
    L.Outcome(
      Unknown, PublicUnverified(observedAt, UNRESOLVED_CODE, NOT_VERIFIED + RECONCILE + OR_CLOSE),
      Some(UnresolvedCommand))
  }

  lemma MadeResultIsProper(id: Uuid, outcome: L.Outcome, hex: Digest -> Json.Text, message: string, observedAt: int)
    requires Reportable(outcome.state)
    ensures W.ProperResult(id, MakeResult(id, outcome, hex, message, observedAt))
    ensures MakeResult(id, outcome, hex, message, observedAt).state == outcome.state
  {
    EvidenceIsWellFormed(outcome.state, outcome.process, hex);
  }

  /** The inputs of one run after its claim: journal writes, clock readings, host answers and wording.
      The window for the effect is opened before its marker is written. */
  datatype Inputs = Inputs(
    claiming: W.Io, retiring: W.Io, beginning: W.Io, saving: W.Io,
    at: int, authorized: int, look: L.Answers, act: L.Answers, hex: Digest -> Json.Text, message: string,
    seen: Json.Text)

  function Window(x: Inputs): int { x.authorized + OBSERVATION_TIMEOUT_MS }

  /** What the world counts of a command: invocations, spawns and signals. */
  function Counted(w: W.World, id: Uuid): (nat, nat, seq<StopTarget>) {
    (W.Count(w.invocations, id), W.Count(w.spawns, id), W.Signals(w, id))
  }

  // ----- what a run did -----

  /** An outcome is what the host answered: success shows exactly the inspection it rests on. */
  ghost predicate Answered(outcome: L.Outcome, basis: Basis, a: L.Answers) {
    L.SeenIn(basis, a) && (outcome.state == Succeeded ==> basis.Seen? && outcome == L.Success(basis.inspection))
  }

  /** What a call came to; one that throws proves nothing. */
  function OutcomeOf(reply: Option<L.Outcome>, x: Inputs): L.Outcome {
    if reply.Some? then reply.value else UnknownOutcome(x.seen)
  }

  function Reported(id: Uuid, reply: Option<L.Outcome>, x: Inputs): CommandResult {
    MakeResult(id, OutcomeOf(reply, x), x.hex, x.message, x.at)
  }

  /** What the host answers to the granted execution of this entry. */
  ghost predicate ActTold(e: Entry, x: Inputs, deadline: int, reply: Option<L.Outcome>) {
    match e.command.operation
    case Start => L.StartTold(x.act, deadline, reply)
    case Stop =>
      var begun := e.(effectStartedAt := Some(x.at));
      L.StopTold(x.act, None, L.Journals(begun, x.act, None), deadline, reply)
  }

  ghost predicate LookToldOf(e: Entry, x: Inputs, reply: Option<L.Outcome>) {
    L.LookTold(e.command.operation, e.canonicalPath, e.stopTarget, x.look, reply)
  }

  /** What a run comes to for this entry, once its claim reply leaves something to conclude: an
      effect that may have happened is looked at, without permission nothing is known, and
      otherwise the effect is performed. */
  ghost predicate Told(e: Entry, record: Record, x: Inputs, deadline: int, reply: Option<L.Outcome>) {
    if e.effectStartedAt.Some? then LookToldOf(e, x, reply)
    else if record.state != Executing then reply.None?
    else ActTold(e, x, deadline, reply)
  }

  /** The result a step saves reports what the host answered in this run, whatever that was, and a
      success rests on what was answered. */
  ghost predicate Sourced(s: W.Step, e: Entry, record: Record, x: Inputs, deadline: int)
    requires W.Saves(s)
  {
    exists reply ::
      && Told(e, record, x, deadline, reply) && s.result == Reported(s.id, reply, x)
      && (Answered(OutcomeOf(reply, x), s.basis, x.act) || Answered(OutcomeOf(reply, x), s.basis, x.look))
  }

  ghost predicate AllSourced(steps: seq<W.Step>, e: Entry, record: Record, x: Inputs, deadline: int) {
    forall s :: s in steps && W.Saves(s) ==> Sourced(s, e, record, x, deadline)
  }

  /** The durable result of a run: a verified one is kept, an unknown one only gives way to a verified one. */
  ghost predicate Concluded(
    id: Uuid, e: Entry, record: Record, x: Inputs, deadline: int, result: Option<CommandResult>)
  {
    if e.result.Some? && (e.result.value.state != Unknown || e.effectStartedAt.None?) then result == e.result
    else
      exists reply ::
        && Told(e, record, x, deadline, reply)
        && result == if e.result.Some? && OutcomeOf(reply, x).state == Unknown then e.result
                     else Some(Reported(id, reply, x))
  }

  /** None of these steps saves a result. */
  predicate Quiet(steps: seq<W.Step>) { forall s :: s in steps ==> !W.Saves(s) }

  lemma SourcedSum(
    steps: seq<W.Step>, further: seq<W.Step>, e: Entry, record: Record, x: Inputs, deadline: int)
    requires Quiet(steps) || AllSourced(steps, e, record, x, deadline)
    requires Quiet(further) || AllSourced(further, e, record, x, deadline)
    ensures AllSourced(steps + further, e, record, x, deadline)
  {
    hide Sourced;
  }

  /** The lifecycle was invoked, and this is what may be saved of it. */
  ghost predicate Performed(w: W.World, agent: Uuid, id: Uuid, outcome: L.Outcome, basis: Basis) {
    && RunOf(w, agent, id).Some? && id in w.hosts[agent].memory && Reportable(outcome.state)
    && Rests(w.hosts[agent].memory[id], outcome.state, basis)
    && var run := RunOf(w, agent, id).value;
    run.Invoked? || run.Driven? || (run.Broken? && outcome.state == Unknown)
  }

  lemma NoChange(h: W.Host, g: W.Host, id: Uuid)
    requires g.memory == h.memory && g.disk == h.disk && g.environmentId == h.environmentId
    ensures var (a, b) := (W.SetRun(h, id, None), W.Write(g, id, None, W.Durable, None, None));
            a.memory == b.memory && a.disk == b.disk && a.environmentId == b.environmentId && id !in a.runs
    ensures forall io :: W.Write(g, id, None, io, None, None) == W.Write(g, id, None, W.Durable, None, None)
  {
  }

  // ----- when a run's writes end well -----

  /** The claim reply is journaled: it is for this command and this agent, it keeps the claim time, and the write is
      durable. */
  predicate Takes(e: Entry, seen: Entry, record: Record, io: W.Io) {
    && SameCommand(seen.command, record.command) && SameCommand(e.command, record.command) && ValidRecord(record)
    && record.owner.Some? && record.owner.value.agentId == seen.agentId == e.agentId
    && (e.claim.Some? && e.claim.value.claimedAt.Some? ==> record.claimedAt == e.claim.value.claimedAt)
    && io == W.Durable
  }

  /** The reply settles the command: it was closed, or an outcome is verified where this host knows none. */
  predicate Settles(e: Entry, record: Record) {
    || record.closure.Some?
    || ((record.state == Succeeded || record.state == Failed) && (e.result.None? || e.result.value.state == Unknown))
  }

  /** The reply permits the effect, and nothing of it was begun or concluded. */
  predicate Permits(e: Entry, record: Record) {
    record.state == Executing && record.closure.None? && e.result.None? && e.effectStartedAt.None?
  }

  /** What a journaled reply leaves of the entry: a retired receipt where it settles the command, and otherwise a
      durable result exactly where the writes on the way are durable; the effect is begun only where it is permitted. */
  predicate Went(e: Entry, record: Record, x: Inputs, saved: bool, after: Entry, invoked: int) {
    && (Settles(e, record) ==>
          !saved && after == if x.retiring == W.Durable && e.retiredAt.None? then e.(retiredAt := Some(x.at)) else e)
    && (!Settles(e, record) ==>
          var begins := Permits(e, record) ==> x.beginning == W.Durable;
          && (begins && x.saving == W.Durable ==> saved)
          && (saved && e.result.None? ==> begins && x.saving == W.Durable)
          && (!saved ==> after.result == e.result)
          && after.retiredAt == e.retiredAt
          && after.effectStartedAt == if Permits(e, record) && x.beginning == W.Durable then Some(x.at)
                                      else e.effectStartedAt)
    && invoked == if Permits(e, record) && x.beginning == W.Durable then 1 else 0
  }

  /** What a granted run leaves of the entry: nothing changes on a reply that is not journaled. */
  predicate Came(before: Entry, seen: Entry, record: Record, x: Inputs, saved: bool, after: Entry, invoked: int) {
    if Takes(before, seen, record, x.claiming) then
        Went(before.(claim := Some(record)), record, x, saved, after, invoked)
    else !saved && after == before && invoked == 0
  }

  lemma SettledWent(e: Entry, record: Record, x: Inputs)
    requires W.MustRetire(e, record)
    ensures Went(e, record, x, false,
                 if x.retiring == W.Durable && e.retiredAt.None? then e.(retiredAt := Some(x.at)) else e, 0)
  {
  }

  lemma ExecutedWent(e: Entry, record: Record, x: Inputs, saved: bool, after: Entry)
    requires !W.MustRetire(e, record) && e.result.None? && e.effectStartedAt.None? && record.state == Executing
    requires saved == (x.beginning == W.Durable && x.saving == W.Durable)
    requires after.effectStartedAt == (if x.beginning == W.Durable then Some(x.at) else None)
    requires after.retiredAt == e.retiredAt && (!saved ==> after.result == e.result)
    ensures Went(e, record, x, saved, after, if x.beginning == W.Durable then 1 else 0)
  {
  }

  lemma ConcludedWent(e: Entry, record: Record, x: Inputs, saved: bool, after: Entry)
    requires !W.MustRetire(e, record) && (e.result.Some? || e.effectStartedAt.Some? || record.state != Executing)
    requires (x.saving == W.Durable ==> saved) && (saved && e.result.None? ==> x.saving == W.Durable)
    requires after.effectStartedAt == e.effectStartedAt && after.retiredAt == e.retiredAt
    requires !saved ==> after.result == e.result
    ensures Went(e, record, x, saved, after, 0)
  {
  }

  /** The order in which the executor asks comes to the same. */
  lemma AskedInOrder(e: Entry, record: Record)
    ensures W.MustRetire(e, record)
            <==> record.closure.Some? || (e.result.Some? && e.result.value.state == Unknown && Terminal(record.state))
                 || (e.result.None? && Terminal(record.state))
  {
  }

  lemma TakesIsWritten(e: Entry, seen: Entry, record: Record, io: W.Io)
    requires ValidEntry(e)
    ensures Takes(e, seen, record, io)
            <==> SameCommand(seen.command, record.command) && record.owner.Some?
                 && record.owner.value.agentId == seen.agentId && J.Written(RecordClaim(e, record), io)
    ensures Takes(e, seen, record, io) ==> Claimed(e.(claim := Some(record)))
  {
  }

  lemma MarkerIsWritten(e: Entry, record: Record, at: int, io: W.Io)
    requires ValidEntry(e) && e.claim == Some(record) && record.state == Executing
    requires e.effectStartedAt.None? && e.result.None?
    ensures J.Written(Marker(e, at), io) <==> io == W.Durable
  {
  }

  lemma ResultIsWritten(e: Entry, result: CommandResult, io: W.Io)
    requires ValidEntry(e) && Claimed(e) && result.commandId == e.command.commandId && Reportable(result.state)
    requires e.result.None? || (e.result.value.state == Unknown && result.state != Unknown)
    ensures J.Written(SaveResult(e, result), io) <==> io == W.Durable
  {
  }

  lemma ResultIsClaimed(e: Entry)
    requires ValidEntry(e) && e.result.Some?
    ensures Claimed(e) && Reportable(e.result.value.state)
  {
  }

  lemma RetiredIsWritten(h: W.Host, id: Uuid, at: int, io: W.Io)
    requires id in h.memory && ValidEntry(h.memory[id])
    ensures var (e, g) := (h.memory[id], W.Write(h, id, Some(E.Retire(h.memory[id], at)), io, None, None));
            id in g.memory
            && g.memory[id] == if io == W.Durable && e.retiredAt.None? then e.(retiredAt := Some(at)) else e
  {
  }

  lemma AcknowledgedIsWritten(h: W.Host, id: Uuid, at: int, io: W.Io)
    requires id in h.memory && ValidEntry(h.memory[id])
    ensures var (e, g) := (h.memory[id], W.Write(h, id, Acknowledge(h.memory[id], at), io, None, None));
            id in g.memory
            && g.memory[id] == if io == W.Durable && e.result.Some?
                               then e.(acknowledged := true,
                                       acknowledgedAt :=
                                         Some(if e.acknowledgedAt.Some? then e.acknowledgedAt.value else at))
                               else e
  {
  }

  lemma SavingChanges(h: W.Host, id: Uuid, result: CommandResult, io: W.Io)
    requires id in h.memory
    ensures var g := W.Write(h, id, SaveResult(h.memory[id], result), io, None, None);
            var (e, f) := (h.memory[id], if id in g.memory then g.memory[id] else h.memory[id]);
            && id in g.memory && f.effectStartedAt == e.effectStartedAt && f.retiredAt == e.retiredAt
            && (!J.Written(SaveResult(e, result), io) ==> f == e)
  {
  }

  lemma TargetingChanges(h: W.Host, id: Uuid, target: StopTarget, io: W.Io)
    requires id in h.memory
    ensures var g := W.Write(h, id, PersistStopTarget(h.memory[id], target), io, None, None);
            id in g.memory && g.memory[id] == h.memory[id].(stopTarget := g.memory[id].stopTarget)
  {
  }

  // ----- the steps of an effect -----

  lemma InvokeStep(w: W.World, agent: Uuid, id: Uuid) returns (worlds: seq<W.World>, steps: seq<W.Step>)
    requires RunOf(w, agent, id) == Some(W.Begun) && id in w.hosts[agent].memory
    ensures |worlds| == |steps| + 1 && Path(worlds, steps) && worlds[0] == w
    ensures var v := worlds[|steps|];
            && v.hosts.Keys == w.hosts.Keys && v.hosts[agent] == w.hosts[agent].(runs := v.hosts[agent].runs)
            && RunOf(v, agent, id) == Some(W.Invoked)
            && Counted(v, id) == (Counted(w, id).0 + 1, Counted(w, id).1, Counted(w, id).2)
    ensures Quiet(steps)
  {
    hide W.Enabled, W.Next;
    var s := W.Invoke(agent, id);
    Invokes(w, agent, id);
    PathOf(w, s);
    worlds, steps := [w, W.Next(w, s)], [s];
  }

  lemma Then(worlds: seq<W.World>, steps: seq<W.Step>, s: W.Step) returns (longer: seq<W.World>, more: seq<W.Step>)
    requires |worlds| == |steps| + 1 && Path(worlds, steps) && W.Enabled(worlds[|steps|], s)
    ensures |longer| == |more| + 1 && Path(longer, more) && longer[0] == worlds[0]
            && longer[|more|] == W.Next(worlds[|steps|], s)
    ensures more == steps + [s]
  {
    hide W.Enabled, W.Next;
    var w := worlds[|steps|];
    PathOf(w, s);
    PathJoin(worlds, steps, [w, W.Next(w, s)], [s]);
    longer, more := worlds + [w, W.Next(w, s)][1..], steps + [s];
  }

  lemma Nowhere(w: W.World)
    ensures Path([w], [])
  {
  }

  lemma One(w: W.World, s: W.Step) returns (worlds: seq<W.World>, steps: seq<W.Step>)
    requires W.Enabled(w, s)
    ensures |worlds| == |steps| + 1 && Path(worlds, steps) && worlds[0] == w && worlds[|steps|] == W.Next(w, s)
    ensures steps == [s]
  {
    hide W.Enabled, W.Next;
    PathOf(w, s);
    worlds, steps := [w, W.Next(w, s)], [s];
  }

  lemma RetireStep(w: W.World, v: W.World, s: W.Step, e: Entry, record: Record, x: Inputs)
    returns (worlds: seq<W.World>, steps: seq<W.Step>)
    requires W.Enabled(w, s) && s.RetireSettled? && v == W.Next(w, s)
    ensures |worlds| == |steps| + 1 && Path(worlds, steps) && worlds[0] == w && worlds[|steps|] == v
    ensures forall deadline :: AllSourced(steps, e, record, x, deadline)
  {
    hide W.Enabled, W.Next;
    worlds, steps := One(w, s);
  }

  lemma Joined(worlds: seq<W.World>, steps: seq<W.Step>, more: seq<W.World>, further: seq<W.Step>)
    returns (longer: seq<W.World>, all: seq<W.Step>)
    requires |worlds| == |steps| + 1 && Path(worlds, steps)
    requires |more| == |further| + 1 && Path(more, further) && more[0] == worlds[|steps|]
    ensures |longer| == |all| + 1 && Path(longer, all) && longer[0] == worlds[0] && longer[|all|] == more[|further|]
    ensures all == steps + further
  {
    hide W.Enabled, W.Next;
    PathJoin(worlds, steps, more, further);
    longer, all := worlds + more[1..], steps + further;
  }

  lemma Finishes(
    w: W.World, agent: Uuid, id: Uuid, outcome: L.Outcome, basis: Basis, result: CommandResult, io: W.Io)
    requires Performed(w, agent, id, outcome, basis) && W.ProperResult(id, result) && result.state == outcome.state
    ensures W.Enabled(w, W.Finish(agent, id, result, basis, io))
  {
    hide W.ProperResult;
  }

  lemma Resolves(
    w: W.World, agent: Uuid, id: Uuid, record: Record, result: CommandResult, basis: Basis, io: W.Io)
    requires DecidingOn(w, agent, id, record) && !W.MustRetire(w.hosts[agent].memory[id], record)
    requires w.hosts[agent].memory[id].result.None? && W.ProperResult(id, result)
    requires w.hosts[agent].memory[id].effectStartedAt.Some? || (record.state != Executing && result.state == Unknown)
    requires RestsOnTarget(w.hosts[agent].memory[id], result.state, basis)
    ensures W.Enabled(w, W.Resolve(agent, id, result, basis, io))
  {
    hide W.ProperResult, W.MustRetire;
  }

  lemma Recovers(
    w: W.World, agent: Uuid, id: Uuid, record: Record, result: CommandResult, basis: Basis, io: W.Io)
    requires DecidingOn(w, agent, id, record) && !W.MustRetire(w.hosts[agent].memory[id], record)
    requires W.Inspectable(w.hosts[agent].memory[id]) && Terminal(result.state) && W.ProperResult(id, result)
    requires RestsOnTarget(w.hosts[agent].memory[id], result.state, basis)
    ensures W.Enabled(w, W.Recovered(agent, id, result, basis, io))
  {
    hide W.ProperResult, W.MustRetire;
  }

  lemma KeepStep(w: W.World, agent: Uuid, id: Uuid, record: Record) returns (worlds: seq<W.World>, steps: seq<W.Step>)
    requires DecidingOn(w, agent, id, record) && !W.MustRetire(w.hosts[agent].memory[id], record)
    requires w.hosts[agent].memory[id].result.Some?
    ensures |worlds| == |steps| + 1 && Path(worlds, steps) && worlds[0] == w
    ensures var v := worlds[|steps|];
            && v.hosts.Keys == w.hosts.Keys && v.hosts[agent] == w.hosts[agent].(runs := v.hosts[agent].runs)
            && RunOf(v, agent, id) == Some(W.Saved) && Counted(v, id) == Counted(w, id)
    ensures Quiet(steps)
  {
    hide W.Enabled, W.Next, Path, W.MustRetire;
    Keeps(w, agent, id, record);
    worlds, steps := One(w, W.KeepResult(agent, id));
  }

  /** At most one invocation, and the driver was asked exactly what the world counts. */
  predicate Accounted(c: (nat, nat, seq<StopTarget>), d: (nat, nat, seq<StopTarget>), before: nat, after: nat) {
    c.0 <= d.0 <= c.0 + 1 && d.1 + |d.2| - c.1 - |c.2| == after - before && (d.0 == c.0 ==> after == before)
  }

  lemma StartSteps(w: W.World, agent: Uuid, id: Uuid) returns (worlds: seq<W.World>, steps: seq<W.Step>)
    requires RunOf(w, agent, id) == Some(W.Begun) && id in w.hosts[agent].memory
    requires w.hosts[agent].memory[id].command.operation == Start
    ensures |worlds| == |steps| + 1 && Path(worlds, steps) && worlds[0] == w
    ensures var v := worlds[|steps|];
            && v.hosts.Keys == w.hosts.Keys && v.hosts[agent] == w.hosts[agent].(runs := v.hosts[agent].runs)
            && RunOf(v, agent, id) == Some(W.Driven)
            && Counted(v, id) == (Counted(w, id).0 + 1, Counted(w, id).1 + 1, Counted(w, id).2)
    ensures Quiet(steps)
  {
    hide W.Enabled, W.Next, Path;
    worlds, steps := InvokeStep(w, agent, id);
    SpawnsOnce(worlds[|steps|], agent, id);
    worlds, steps := Then(worlds, steps, W.Spawn(agent, id));
  }

  /** `g` is the journal's view of the host as the stop begins. */
  lemma StopSteps(w: W.World, g: W.Host, agent: Uuid, id: Uuid, target: StopTarget, io: W.Io)
    returns (worlds: seq<W.World>, steps: seq<W.Step>)
    requires RunOf(w, agent, id) == Some(W.Begun) && id in w.hosts[agent].memory
    requires w.hosts[agent].memory[id].command.operation == Stop
    requires var h := w.hosts[agent]; g.memory == h.memory && g.disk == h.disk && g.environmentId == h.environmentId
    ensures |worlds| == |steps| + 1 && Path(worlds, steps) && worlds[0] == w
    ensures var (v, change) := (worlds[|steps|], PersistStopTarget(g.memory[id], target));
            var written := W.Write(g, id, change, io, None, None);
            && v.hosts.Keys == w.hosts.Keys && id in v.hosts[agent].memory
            && v.hosts[agent].memory == written.memory && v.hosts[agent].disk == written.disk
            && v.hosts[agent].environmentId == written.environmentId
            && RunOf(v, agent, id) == Some(if J.Written(change, io) then W.Driven else W.Broken)
            && Counted(v, id).0 == Counted(w, id).0 + 1 && Counted(v, id).1 == Counted(w, id).1
            && Counted(v, id).2 == if J.Written(change, io) then Counted(w, id).2 + [target] else Counted(w, id).2
    ensures Quiet(steps)
  {
    hide W.Enabled, W.Next, W.Write, J.Written, Path;
    worlds, steps := InvokeStep(w, agent, id);
    var u := worlds[|steps|];
    var h := u.hosts[agent];
    var change := PersistStopTarget(h.memory[id], target);
    PersistsTarget(u, agent, id, target, io);
    WriteParts(h, g, id, change, io, Some(W.Targeted(target)), Some(W.Broken));
    worlds, steps := Then(worlds, steps, W.PersistTarget(agent, id, target, io));
    if J.Written(change, io) {
      SignalsTarget(worlds[|steps|], agent, id, target);
      worlds, steps := Then(worlds, steps, W.Signal(agent, id));
    }
  }

  /** The marker step, as the journal's view `g` of the host shows it. */
  lemma BeginStep(w: W.World, g: W.Host, agent: Uuid, id: Uuid, record: Record, at: int, io: W.Io) returns (v: W.World)
    requires DecidingOn(w, agent, id, record) && !W.MustRetire(w.hosts[agent].memory[id], record)
             && record.state == Executing
    requires w.hosts[agent].memory[id].result.None? && w.hosts[agent].memory[id].effectStartedAt.None?
    requires var h := w.hosts[agent]; g.memory == h.memory && g.disk == h.disk && g.environmentId == h.environmentId
    ensures var (s, marker) := (W.Begin(agent, id, at, io), Marker(g.memory[id], at));
            var written := W.Write(g, id, marker, io, None, None);
            && W.Enabled(w, s) && v == W.Next(w, s) && agent in v.hosts
            && v.hosts[agent].memory == written.memory && v.hosts[agent].disk == written.disk
            && v.hosts[agent].environmentId == written.environmentId
            && RunOf(v, agent, id) == (if J.Written(marker, io) then Some(W.Begun) else None)
            && Counted(v, id) == Counted(w, id)
  {
    hide W.Enabled, W.Next, W.Write, W.MustRetire;
    var h := w.hosts[agent];
    Begins(w, agent, id, record, at, io);
    NoChange(h, g, id);
    var marker := Marker(h.memory[id], at);
    if marker.Some? { WriteParts(h, g, id, marker, io, Some(W.Begun), None); }
    v := W.Next(w, W.Begin(agent, id, at, io));
  }

  class CommandExecutor {
    const journal: J.CommandJournal
    const lifecycle: L.LocalLifecycleAdapter

    constructor (journal: J.CommandJournal, lifecycle: L.LocalLifecycleAdapter)
      ensures this.journal == journal && this.lifecycle == lifecycle
    {
      this.journal, this.lifecycle := journal, lifecycle;
    }

    /** The world's host of this agent holds this journal. */
    ghost predicate Mirrors(w: W.World)
      reads journal
    {
      && journal.Valid()
      && journal.agentId in w.hosts
      && var h := w.hosts[journal.agentId];
      h.memory == journal.Memory() && h.disk == journal.View().disk && h.environmentId == journal.environmentId
    }

    // ----- starting a run -----

    /** The run of an action whose turn has come: a finished entry is left alone; any other asks
        the fleet for its claim. */
    method StartRun(
      id: Uuid, session: Uuid, ghost request: Uuid, ghost schedule: S.Schedule, ghost turn: nat, ghost w: W.World)
      returns (seen: Option<Entry>, ghost v: W.World)
      requires Mirrors(w) && id in journal.Memory() && request !in w.requests
      requires S.Fits(w.hosts[journal.agentId], schedule) && S.Ready(w.hosts[journal.agentId], schedule, turn)
      requires schedule.ids[turn] == id
      ensures Mirrors(v)
      ensures var e := journal.Memory()[id];
              seen.None?
              <==> e.retiredAt.Some? || (e.acknowledged && (e.result.Some? ==> e.result.value.state != Unknown))
      ensures Finished(journal.Memory()[id]) ==> seen.None? && v == w
      ensures !Finished(journal.Memory()[id]) ==>
                && seen == Some(journal.Memory()[id])
                && W.Enabled(w, W.StartRun(journal.agentId, id, session, request))
                && v == W.Next(w, W.StartRun(journal.agentId, id, session, request))
                && RunOf(v, journal.agentId, id) == Some(W.Claiming(request, seen.value))
    {
      hide J.ImageOf, J.Parses, J.Belongs, ValidEntry, W.Enabled, W.Next, S.AloneInProject, S.Fits, S.Ready, Finished;
      v := w;
      var index := journal.Find(id);
      var entry := journal.entries[index];
      FinishedMeans(entry);
      if (entry.acknowledged && !(entry.result.Some? && entry.result.value.state == Unknown)) || entry.retiredAt.Some? {
        return None, v;
      }
      seen := Some(entry);
      S.ReadyIsAlone(w.hosts[journal.agentId], schedule, turn);
      Starts(w, journal.agentId, id, session, request);
      v := W.Next(w, W.StartRun(journal.agentId, id, session, request));
    }

    /** The claim failed: only an expiry of a command never claimed here retires the receipt. */
    method ClaimFailed(id: Uuid, seen: Entry, expired: bool, at: int, io: W.Io, ghost request: Uuid, ghost w: W.World)
      returns (ghost step: W.Step, ghost v: W.World)
      requires Mirrors(w) && id in journal.Memory() && RunOf(w, journal.agentId, id) == Some(W.Claiming(request, seen))
      requires expired ==> (request, W.DeadlineElapsed) in w.answers
      modifies journal
      ensures step == if expired then W.TakeExpiry(journal.agentId, id, at, io) else W.GiveUp(journal.agentId, id)
      ensures W.Enabled(w, step) && v == W.Next(w, step) && Mirrors(v) && RunOf(v, journal.agentId, id).None?
      ensures var e := old(journal.Memory())[id];
              && id in journal.Memory()
              && journal.Memory()[id]
                 == if expired && (seen.claim.Some? ==> seen.claim.value.claimedAt.None?) && seen.effectStartedAt.None?
                       && io == W.Durable && e.retiredAt.None?
                    then e.(retiredAt := Some(at)) else e
    {
      hide J.ImageOf, J.Parses, J.Belongs, ValidEntry, W.Enabled, W.Next, W.Write, J.Written;
      EntryIsValid(id);
      RetiredIsWritten(journal.View(), id, at, io);
      if expired {
        TakesExpiry(w, journal.agentId, id, at, io, request, seen);
      } else {
        GivesUp(w, journal.agentId, id);
      }
      ghost var h := w.hosts[journal.agentId];
      WriteParts(h, journal.View(), id, Some(E.Retire(h.memory[id], at)), io, None, None);
      if expired && !(seen.claim.Some? && seen.claim.value.claimedAt.Some?) && seen.effectStartedAt.None? {
        var ok := journal.Retire(id, at, io);
      }
      step := if expired then W.TakeExpiry(journal.agentId, id, at, io) else W.GiveUp(journal.agentId, id);
      v := W.Next(w, step);
    }

    // ----- after the claim reply -----

    lemma EntryIsValid(id: Uuid)
      requires journal.Valid() && id in journal.Memory()
      ensures ValidEntry(journal.Memory()[id]) && journal.Memory()[id].command.commandId == id
    {
      J.ImageMembers(journal.entries);
    }

    method TakeClaim(id: Uuid, seen: Entry, record: Record, io: W.Io, ghost request: Uuid, ghost w: W.World)
      returns (ok: bool, ghost v: W.World)
      requires Mirrors(w) && id in journal.Memory() && RunOf(w, journal.agentId, id) == Some(W.Claiming(request, seen))
      requires (request, W.Granted(record)) in w.answers
      modifies journal
      ensures var s := W.TakeClaim(journal.agentId, id, record, io);
              W.Enabled(w, s) && v == W.Next(w, s) && Mirrors(v) && id in journal.Memory()
      ensures RunOf(v, journal.agentId, id) == if ok then Some(W.Deciding(record)) else None
      ensures ok <==> Takes(old(journal.Memory())[id], seen, record, io)
      ensures journal.Memory()[id]
              == if ok then old(journal.Memory())[id].(claim := Some(record)) else old(journal.Memory())[id]
      ensures ok ==> Claimed(journal.Memory()[id])
      ensures Counted(v, id) == Counted(w, id)
    {
      hide J.ImageOf, ValidEntry, W.Enabled, W.Next, W.Write, J.Written, Takes, Claimed;
      EntryIsValid(id);
      TakesIsWritten(journal.Memory()[id], seen, record, io);
      ghost var (h, view) := (w.hosts[journal.agentId], journal.View());
      TakesClaim(w, journal.agentId, id, record, io, request, seen);
      WriteParts(h, journal.View(), id, RecordClaim(h.memory[id], record), io, Some(W.Deciding(record)), None);
      if !SameCommand(seen.command, record.command) || record.owner.None?
         || record.owner.value.agentId != seen.agentId
      {
        ok := false;
      } else {
        ok := journal.RecordClaim(id, record, io);
        ClaimedEntry(view, id, record, io);
      }
      v := W.Next(w, W.TakeClaim(journal.agentId, id, record, io));
    }

    method Retire(id: Uuid, record: Record, at: int, io: W.Io, ghost w: W.World) returns (ghost v: W.World)
      requires Mirrors(w) && DecidingOn(w, journal.agentId, id, record) && W.MustRetire(journal.Memory()[id], record)
      modifies journal
      ensures var s := W.RetireSettled(journal.agentId, id, at, io);
              W.Enabled(w, s) && v == W.Next(w, s) && Mirrors(v)
      ensures RunOf(v, journal.agentId, id).None? && Counted(v, id) == Counted(w, id)
      ensures id in journal.Memory()
              && var e := old(journal.Memory())[id];
                 journal.Memory()[id] == if io == W.Durable && e.retiredAt.None? then e.(retiredAt := Some(at)) else e
    {
      hide J.ImageOf, J.Parses, J.Belongs, ValidEntry, W.Enabled, W.Next, W.Write, J.Written;
      EntryIsValid(id);
      RetiredIsWritten(journal.View(), id, at, io);
      ghost var h := w.hosts[journal.agentId];
      Retires(w, journal.agentId, id, record, at, io);
      WriteParts(h, journal.View(), id, Some(E.Retire(h.memory[id], at)), io, None, None);
      var ok := journal.Retire(id, at, io);
      v := W.Next(w, W.RetireSettled(journal.agentId, id, at, io));
    }

    /** Saves what a lifecycle call or an inspection concluded. */
    method Save(result: CommandResult, io: W.Io, ghost s: W.Step, ghost w: W.World) returns (ok: bool, ghost v: W.World)
      requires Mirrors(w) && W.Saves(s) && W.Enabled(w, s)
      requires s.agent == journal.agentId && s.id == result.commandId && s.result == result && s.io == io
      modifies journal
      ensures v == W.Next(w, s) && Mirrors(v) && result.commandId in journal.Memory()
      ensures RunOf(v, journal.agentId, s.id) == if ok then Some(W.Saved) else None
      ensures ok == J.Written(SaveResult(old(journal.Memory())[s.id], result), io)
      ensures var (e, f) := (old(journal.Memory())[s.id], journal.Memory()[s.id]);
              && f.effectStartedAt == e.effectStartedAt && f.retiredAt == e.retiredAt
              && f.result == if ok then Some(result) else e.result
      ensures Counted(v, s.id) == Counted(w, s.id)
    {
      hide J.ImageOf, ValidEntry, W.Enabled, W.Next, W.Write, J.Written;
      SavesResult(w, s);
      SavingChanges(journal.View(), s.id, result, io);
      ghost var h := w.hosts[journal.agentId];
      WriteParts(h, journal.View(), s.id, SaveResult(h.memory[s.id], result), io, Some(W.Saved), None);
      ok := journal.SaveResult(result.commandId, result, io);
      if ok { SavedIsKept(h, s.id, result, io, Some(W.Saved), None); }
      v := W.Next(w, s);
    }

    // ----- the effect -----

    method BeginEffect(
      id: Uuid, record: Record, at: int, io: W.Io, ghost w: W.World)
      returns (ok: bool, ghost v: W.World)
      requires Mirrors(w) && DecidingOn(w, journal.agentId, id, record) && record.state == Executing
      requires !W.MustRetire(journal.Memory()[id], record)
      requires journal.Memory()[id].result.None? && journal.Memory()[id].effectStartedAt.None?
      requires journal.Memory()[id].claim == Some(record)
      modifies journal
      ensures var s := W.Begin(journal.agentId, id, at, io);
              W.Enabled(w, s) && v == W.Next(w, s) && Mirrors(v) && id in journal.Memory()
      ensures ok == (io == W.Durable)
      ensures journal.Memory()[id] == if ok then old(journal.Memory())[id].(effectStartedAt := Some(at))
                                      else old(journal.Memory())[id]
      ensures journal.Memory()[id].stopTarget.None?
      ensures RunOf(v, journal.agentId, id) == if ok then Some(W.Begun) else None
      ensures Counted(v, id) == Counted(w, id)
    {
      hide J.ImageOf, ValidEntry, W.Enabled, W.Next, W.Write, Counted, E.BeginEffect, J.Written, W.MustRetire;
      ghost var view := journal.View();
      v := BeginStep(w, view, journal.agentId, id, record, at, io);
      NoTargetYet(id);
      EntryIsValid(id);
      MarkerIsWritten(journal.Memory()[id], record, at, io);
      BegunEntry(view, id, at, io);
      var started;
      ok, started := journal.BeginEffect(id, at, io);
    }

    /** A target is journaled only after the effect marker. */
    lemma NoTargetYet(id: Uuid)
      requires journal.Valid() && id in journal.Memory() && journal.Memory()[id].effectStartedAt.None?
      ensures journal.Memory()[id].stopTarget.None?
    {
      J.ImageMembers(journal.entries);
    }

    /** Invokes the lifecycle for a start; an exception leaves the outcome unknown. */
    method StartProject(id: Uuid, x: Inputs, ghost w: W.World)
      returns (outcome: L.Outcome, ghost told: Option<L.Outcome>, ghost basis: Basis,
               ghost worlds: seq<W.World>, ghost steps: seq<W.Step>)
      requires Mirrors(w) && RunOf(w, journal.agentId, id) == Some(W.Begun)
      requires id in journal.Memory() && journal.Memory()[id].command.operation == Start
      requires L.Ends(x.act.polls, lifecycle.Deadline(x.act.now, Some(Window(x))))
      modifies lifecycle
      ensures |worlds| == |steps| + 1 && Path(worlds, steps) && worlds[0] == w && Mirrors(worlds[|steps|])
      ensures Performed(worlds[|steps|], journal.agentId, id, outcome, basis)
      ensures Quiet(steps) && Answered(outcome, basis, x.act)
      ensures outcome == OutcomeOf(told, x) && L.StartTold(x.act, lifecycle.Deadline(x.act.now, Some(Window(x))), told)
      ensures var (c, d) := (Counted(w, id), Counted(worlds[|steps|], id));
              d == (c.0 + 1, c.1 + |lifecycle.effects| - |old(lifecycle.effects)|, c.2)
    {
      hide UnknownOutcome, J.ImageOf, ValidEntry, W.Enabled, W.Next, Path, Counted, L.StartIsProved, L.StartTold;
      if L.Spawns(x.act) {
        worlds, steps := StartSteps(w, journal.agentId, id);
      } else {
        worlds, steps := InvokeStep(w, journal.agentId, id);
      }
      var reply := lifecycle.Start(x.act, Some(Window(x)));
      told := reply;
      outcome := if reply.Some? then reply.value else UnknownOutcome(x.seen);
      basis := Unseen;
      if outcome.state == Succeeded { basis := L.BasisOfStart(x.act, outcome); }
    }

    /** Invokes the lifecycle for a stop; the target is journaled on the way. */
    method StopProject(id: Uuid, x: Inputs, ghost w: W.World)
      returns (outcome: L.Outcome, ghost told: Option<L.Outcome>, ghost basis: Basis,
               ghost worlds: seq<W.World>, ghost steps: seq<W.Step>)
      requires Mirrors(w) && RunOf(w, journal.agentId, id) == Some(W.Begun)
      requires id in journal.Memory() && journal.Memory()[id].command.operation == Stop
               && journal.Memory()[id].stopTarget.None?
      requires L.Ends(x.act.polls, lifecycle.Deadline(x.act.now, Some(Window(x))))
      modifies lifecycle, journal
      ensures |worlds| == |steps| + 1 && Path(worlds, steps) && worlds[0] == w && Mirrors(worlds[|steps|])
      ensures Performed(worlds[|steps|], journal.agentId, id, outcome, basis)
      ensures Quiet(steps) && Answered(outcome, basis, x.act)
      ensures outcome == OutcomeOf(told, x)
      ensures L.StopTold(x.act, None, L.Journals(old(journal.Memory())[id], x.act, None),
                         lifecycle.Deadline(x.act.now, Some(Window(x))), told)
      ensures var (c, d) := (Counted(w, id), Counted(worlds[|steps|], id));
              d.0 == c.0 + 1 && d.1 == c.1 && |d.2| == |c.2| + |lifecycle.effects| - |old(lifecycle.effects)|
      ensures id in journal.Memory()
              && var e := old(journal.Memory())[id];
                 journal.Memory()[id] == e.(stopTarget := journal.Memory()[id].stopTarget)
    {
      hide UnknownOutcome, J.ImageOf, ValidEntry, W.Enabled, W.Next, W.Write, J.Written, Path, L.StopIsProved,
        L.StopsAt, L.Ends, L.StopTold, L.Journals, Counted;
      ghost var (view, target) := (journal.View(), L.StopsAt(x.act, None));
      if target.Some? {
        TargetingChanges(view, id, target.value, x.act.persisting);
        worlds, steps := StopSteps(w, view, journal.agentId, id, target.value, x.act.persisting);
      } else {
        worlds, steps := InvokeStep(w, journal.agentId, id);
      }
      var reply := lifecycle.Stop(journal, id, x.act, None, Some(Window(x)));
      told := reply;
      outcome := if reply.Some? then reply.value else UnknownOutcome(x.seen);
      basis := Unseen;
      if outcome.state == Succeeded {
        basis := L.BasisOfStop(x.act, None, outcome);
        if target.Some? { TargetedEntry(view, id, target.value, x.act.persisting); }
      }
    }

    // ----- deciding -----

    /** The read-only look at what became of an effect; an exception leaves it unknown. */
    method Inspect(id: Uuid, x: Inputs)
      returns (outcome: L.Outcome, ghost told: Option<L.Outcome>, ghost basis: Basis)
      requires journal.Valid() && id in journal.Memory()
      ensures Reportable(outcome.state) && RestsOnTarget(journal.Memory()[id], outcome.state, basis)
      ensures Answered(outcome, basis, x.look)
      ensures outcome == OutcomeOf(told, x) && LookToldOf(journal.Memory()[id], x, told)
    {
      hide UnknownOutcome, J.ImageOf, ValidEntry, L.LookTold;
      var index := journal.Find(id);
      var entry := journal.entries[index];
      var reply := lifecycle.Reconcile(entry.command.operation, entry.canonicalPath, entry.stopTarget, x.look);
      told := reply;
      outcome := if reply.Some? then reply.value else UnknownOutcome(x.seen);
      basis := Unseen;
      if outcome.state == Succeeded {
        basis := Seen(x.look.observed.value, if entry.command.operation.Stop? then entry.stopTarget else None);
      }
    }

    /** Saves an outcome as the last step of a path. */
    method Conclude(
      id: Uuid, outcome: L.Outcome, x: Inputs, ghost e: Entry, ghost record: Record, ghost told: Option<L.Outcome>,
      ghost deadline: int, ghost s: W.Step, ghost before: seq<W.World>, ghost taken: seq<W.Step>)
      returns (saved: bool, ghost worlds: seq<W.World>, ghost steps: seq<W.Step>)
      requires |before| == |taken| + 1 && Path(before, taken) && Mirrors(before[|taken|])
      requires W.Saves(s) && W.Enabled(before[|taken|], s) && s.agent == journal.agentId && s.id == id
               && s.io == x.saving
      requires s.result == MakeResult(id, outcome, x.hex, x.message, x.at)
      requires Answered(outcome, s.basis, x.act) || Answered(outcome, s.basis, x.look)
      requires outcome == OutcomeOf(told, x) && Told(e, record, x, deadline, told) && Quiet(taken)
      requires id in journal.Memory() && Claimed(journal.Memory()[id])
      requires var r := journal.Memory()[id].result; r.None? || (r.value.state == Unknown && outcome.state != Unknown)
      requires Reportable(outcome.state)
      modifies journal
      ensures |worlds| == |steps| + 1 && Path(worlds, steps) && worlds[0] == before[0] && Mirrors(worlds[|steps|])
      ensures RunOf(worlds[|steps|], journal.agentId, id) == if saved then Some(W.Saved) else None
      ensures Counted(worlds[|steps|], id) == Counted(before[|taken|], id)
      ensures AllSourced(steps, e, record, x, deadline)
      ensures saved == (x.saving == W.Durable) && id in journal.Memory()
      ensures var (e, f) := (old(journal.Memory())[id], journal.Memory()[id]);
              && f.effectStartedAt == e.effectStartedAt && f.retiredAt == e.retiredAt
              && f.result == if saved then Some(Reported(id, told, x)) else e.result
    {
      hide W.Enabled, W.Next, Path, Counted, ValidEntry, J.ImageOf, UnknownOutcome, Told, J.Written, Claimed;
      EntryIsValid(id);
      ResultIsWritten(journal.Memory()[id], MakeResult(id, outcome, x.hex, x.message, x.at), x.saving);
      ghost var v;
      saved, v := Save(MakeResult(id, outcome, x.hex, x.message, x.at), x.saving, s, before[|taken|]);
      worlds, steps := Then(before, taken, s);
      assert Sourced(s, e, record, x, deadline);
      SourcedSum(taken, [s], e, record, x, deadline);
    }

    /** The effect: the lifecycle is invoked once, for a start or for a stop. */
    method Perform(id: Uuid, x: Inputs, ghost e: Entry, ghost w: W.World)
      returns (outcome: L.Outcome, ghost told: Option<L.Outcome>, ghost basis: Basis,
               ghost worlds: seq<W.World>, ghost steps: seq<W.Step>)
      requires Mirrors(w) && RunOf(w, journal.agentId, id) == Some(W.Begun) && id in journal.Memory()
      requires journal.Memory()[id] == e.(effectStartedAt := Some(x.at)) && e.stopTarget.None?
      requires L.Ends(x.act.polls, lifecycle.Deadline(x.act.now, Some(Window(x))))
      modifies lifecycle, journal
      ensures |worlds| == |steps| + 1 && Path(worlds, steps) && worlds[0] == w && Mirrors(worlds[|steps|])
      ensures Performed(worlds[|steps|], journal.agentId, id, outcome, basis)
      ensures Quiet(steps) && Answered(outcome, basis, x.act)
      ensures outcome == OutcomeOf(told, x) && ActTold(e, x, lifecycle.Deadline(x.act.now, Some(Window(x))), told)
      ensures var (c, d) := (Counted(w, id), Counted(worlds[|steps|], id));
              d.0 == c.0 + 1 && d.1 + |d.2| - c.1 - |c.2| == |lifecycle.effects| - |old(lifecycle.effects)|
      ensures id in journal.Memory()
              && var e := old(journal.Memory())[id];
                 journal.Memory()[id] == e.(stopTarget := journal.Memory()[id].stopTarget)
    {
      hide UnknownOutcome, Rests, W.Enabled, W.Next, Path, Counted, ValidEntry, J.ImageOf, L.Ends, L.StartTold,
        L.StopTold,
        L.Journals;
      var index := journal.Find(id);
      if journal.entries[index].command.operation.Start? {
        outcome, told, basis, worlds, steps := StartProject(id, x, w);
      } else {
        outcome, told, basis, worlds, steps := StopProject(id, x, w);
      }
    }

    /** The granted execution: marker, effect, result. */
    method Execute(id: Uuid, record: Record, x: Inputs, ghost w: W.World)
      returns (saved: bool, ghost worlds: seq<W.World>, ghost steps: seq<W.Step>)
      requires Mirrors(w) && DecidingOn(w, journal.agentId, id, record) && record.state == Executing
      requires !W.MustRetire(journal.Memory()[id], record)
      requires journal.Memory()[id].result.None? && journal.Memory()[id].effectStartedAt.None?
      requires journal.Memory()[id].claim == Some(record) && Claimed(journal.Memory()[id])
      requires L.Ends(x.act.polls, lifecycle.Deadline(x.act.now, Some(Window(x))))
      modifies journal, lifecycle
      ensures |worlds| == |steps| + 1 && Path(worlds, steps) && worlds[0] == w && Mirrors(worlds[|steps|])
      ensures RunOf(worlds[|steps|], journal.agentId, id) == if saved then Some(W.Saved) else None
      ensures Accounted(Counted(w, id), Counted(worlds[|steps|], id), |old(lifecycle.effects)|, |lifecycle.effects|)
      ensures Counted(worlds[|steps|], id).0 == Counted(w, id).0 + (if x.beginning == W.Durable then 1 else 0)
      ensures id in journal.Memory() && saved == (x.beginning == W.Durable && x.saving == W.Durable)
      ensures var (e, f) := (old(journal.Memory())[id], journal.Memory()[id]);
              && f.effectStartedAt == (if x.beginning == W.Durable then Some(x.at) else None)
              && f.retiredAt == e.retiredAt && (!saved ==> f.result == e.result)
      ensures var (e, deadline) := (old(journal.Memory())[id], lifecycle.Deadline(x.act.now, Some(Window(x))));
              && AllSourced(steps, e, record, x, deadline)
              && (saved ==> Concluded(id, e, record, x, deadline, journal.Memory()[id].result))
    {
      hide MakeResult, UnknownOutcome, Rests, W.Enabled, W.Next, Path, Counted, ValidEntry, J.ImageOf, L.Ends,
        W.MustRetire, W.ProperResult, ActTold;
      ghost var e := journal.Memory()[id];
      ghost var v;
      var started;
      started, v := BeginEffect(id, record, x.at, x.beginning, w);
      worlds, steps := One(w, W.Begin(journal.agentId, id, x.at, x.beginning));
      if !started { return false, worlds, steps; }
      var outcome;
      ghost var told;
      ghost var basis;
      ghost var more;
      ghost var further;
      outcome, told, basis, more, further := Perform(id, x, e, v);
      worlds, steps := Joined(worlds, steps, more, further);
      MadeResultIsProper(id, outcome, x.hex, x.message, x.at);
      ghost var result := MakeResult(id, outcome, x.hex, x.message, x.at);
      Finishes(worlds[|steps|], journal.agentId, id, outcome, basis, result, x.saving);
      ghost var s := W.Finish(journal.agentId, id, result, basis, x.saving);
      ghost var deadline := lifecycle.Deadline(x.act.now, Some(Window(x)));
      saved, worlds, steps := Conclude(id, outcome, x, e, record, told, deadline, s, worlds, steps);
    }

    /** What an earlier effect, or the loss of permission, leaves to be concluded. */
    method Resolve(id: Uuid, record: Record, x: Inputs, ghost w: W.World)
      returns (saved: bool, ghost worlds: seq<W.World>, ghost steps: seq<W.Step>)
      requires Mirrors(w) && DecidingOn(w, journal.agentId, id, record)
      requires !W.MustRetire(journal.Memory()[id], record) && journal.Memory()[id].result.None?
      requires journal.Memory()[id].effectStartedAt.Some? || record.state != Executing
      requires Claimed(journal.Memory()[id])
      modifies journal
      ensures |worlds| == |steps| + 1 && Path(worlds, steps) && worlds[0] == w && Mirrors(worlds[|steps|])
      ensures RunOf(worlds[|steps|], journal.agentId, id) == if saved then Some(W.Saved) else None
      ensures Counted(worlds[|steps|], id) == Counted(w, id)
      ensures saved == (x.saving == W.Durable) && id in journal.Memory()
      ensures var (e, f) := (old(journal.Memory())[id], journal.Memory()[id]);
              f.effectStartedAt == e.effectStartedAt && f.retiredAt == e.retiredAt && (!saved ==> f.result == e.result)
      ensures forall deadline ::
                AllSourced(steps, old(journal.Memory())[id], record, x, deadline)
                && (saved ==>
                    Concluded(id, old(journal.Memory())[id], record, x, deadline, journal.Memory()[id].result))
    {
      hide RestsOnTarget, MakeResult, UnknownOutcome, W.Enabled, W.Next, Path, Counted, ValidEntry, J.ImageOf,
        W.MustRetire, W.ProperResult, L.LookTold;
      ghost var e := journal.Memory()[id];
      var index := journal.Find(id);
      var outcome := UnknownOutcome(x.seen);
      ghost var told: Option<L.Outcome> := None;
      ghost var basis := Unseen;
      UnknownRests(journal.Memory()[id], basis);
      if journal.entries[index].effectStartedAt.Some? { outcome, told, basis := Inspect(id, x); }
      MadeResultIsProper(id, outcome, x.hex, x.message, x.at);
      ghost var result := MakeResult(id, outcome, x.hex, x.message, x.at);
      Resolves(w, journal.agentId, id, record, result, basis, x.saving);
      Nowhere(w);
      ghost var s := W.Resolve(journal.agentId, id, result, basis, x.saving);
      saved, worlds, steps := Conclude(id, outcome, x, e, record, told, 0, s, [w], []);
    }

    /** A retained result is kept, unless it was unknown and inspection now verifies it. */
    method Recover(id: Uuid, record: Record, x: Inputs, ghost w: W.World)
      returns (saved: bool, ghost worlds: seq<W.World>, ghost steps: seq<W.Step>)
      requires Mirrors(w) && DecidingOn(w, journal.agentId, id, record)
      requires !W.MustRetire(journal.Memory()[id], record) && journal.Memory()[id].result.Some?
      modifies journal
      ensures |worlds| == |steps| + 1 && Path(worlds, steps) && worlds[0] == w && Mirrors(worlds[|steps|])
      ensures RunOf(worlds[|steps|], journal.agentId, id) == if saved then Some(W.Saved) else None
      ensures Counted(worlds[|steps|], id) == Counted(w, id)
      ensures x.saving == W.Durable ==> saved
      ensures id in journal.Memory()
      ensures var (e, f) := (old(journal.Memory())[id], journal.Memory()[id]);
              f.effectStartedAt == e.effectStartedAt && f.retiredAt == e.retiredAt && (!saved ==> f.result == e.result)
      ensures forall deadline ::
                AllSourced(steps, old(journal.Memory())[id], record, x, deadline)
                && (saved ==>
                    Concluded(id, old(journal.Memory())[id], record, x, deadline, journal.Memory()[id].result))
    {
      hide RestsOnTarget, MakeResult, UnknownOutcome, W.Enabled, W.Next, Path, Counted, ValidEntry, J.ImageOf,
        W.MustRetire, W.ProperResult, L.LookTold;
      ghost var e := journal.Memory()[id];
      var index := journal.Find(id);
      var entry := journal.entries[index];
      var outcome := UnknownOutcome(x.seen);
      ghost var told: Option<L.Outcome> := None;
      ghost var basis := Unseen;
      if entry.result.value.state == Unknown && entry.effectStartedAt.Some? { outcome, told, basis := Inspect(id, x); }
      EntryIsValid(id);
      ResultIsClaimed(e);
      if outcome.state != Unknown {
        MadeResultIsProper(id, outcome, x.hex, x.message, x.at);
        ghost var result := MakeResult(id, outcome, x.hex, x.message, x.at);
        Recovers(w, journal.agentId, id, record, result, basis, x.saving);
        Nowhere(w);
        ghost var s := W.Recovered(journal.agentId, id, result, basis, x.saving);
        saved, worlds, steps := Conclude(id, outcome, x, e, record, told, 0, s, [w], []);
      } else {
        worlds, steps := KeepStep(w, journal.agentId, id, record);
        saved := true;
      }
    }

    /** From a journaled claim reply to a durable result, to a retired receipt, or to an exception. */
    method Decide(id: Uuid, record: Record, x: Inputs, ghost w: W.World)
      returns (saved: bool, ghost worlds: seq<W.World>, ghost steps: seq<W.Step>)
      requires Mirrors(w) && DecidingOn(w, journal.agentId, id, record)
      requires journal.Memory()[id].claim == Some(record) && Claimed(journal.Memory()[id])
      requires L.Ends(x.act.polls, lifecycle.Deadline(x.act.now, Some(Window(x))))
      modifies journal, lifecycle
      ensures |worlds| == |steps| + 1 && Path(worlds, steps) && worlds[0] == w && Mirrors(worlds[|steps|])
      ensures RunOf(worlds[|steps|], journal.agentId, id) == if saved then Some(W.Saved) else None
      ensures Accounted(Counted(w, id), Counted(worlds[|steps|], id), |old(lifecycle.effects)|, |lifecycle.effects|)
      ensures var (e, deadline) := (old(journal.Memory())[id], lifecycle.Deadline(x.act.now, Some(Window(x))));
              && id in journal.Memory() && AllSourced(steps, e, record, x, deadline)
              && (saved ==> Concluded(id, e, record, x, deadline, journal.Memory()[id].result))
              && Went(e, record, x, saved, journal.Memory()[id], Counted(worlds[|steps|], id).0 - Counted(w, id).0)
    {
      hide W.Enabled, W.Next, Path, Counted, ValidEntry, J.ImageOf, L.Ends, AllSourced, Concluded, Claimed, Went,
        W.MustRetire, Quiet;
      ghost var v := w;
      ghost var e := journal.Memory()[id];
      AskedInOrder(e, record);
      var index := journal.Find(id);
      var entry := journal.entries[index];
      EntryIsValid(id);
      if entry.result.Some? { ResultIsClaimed(entry); }
      if record.closure.Some? || (entry.result.Some? && entry.result.value.state == Unknown && Terminal(record.state)) {
        SettledWent(e, record, x);
        v := Retire(id, record, x.at, x.retiring, w);
        worlds, steps := RetireStep(w, v, W.RetireSettled(journal.agentId, id, x.at, x.retiring), e, record, x);
        saved := false;
      } else if entry.result.Some? {
        saved, worlds, steps := Recover(id, record, x, w);
        ConcludedWent(e, record, x, saved, journal.Memory()[id]);
      } else if Terminal(record.state) {
        SettledWent(e, record, x);
        v := Retire(id, record, x.at, x.retiring, w);
        worlds, steps := RetireStep(w, v, W.RetireSettled(journal.agentId, id, x.at, x.retiring), e, record, x);
        saved := false;
      } else if entry.effectStartedAt.Some? || record.state != Executing {
        saved, worlds, steps := Resolve(id, record, x, w);
        ConcludedWent(e, record, x, saved, journal.Memory()[id]);
      } else {
        saved, worlds, steps := Execute(id, record, x, w);
        ExecutedWent(e, record, x, saved, journal.Memory()[id]);
      }
    }

    /** From the claim reply on. */
    method Granted(id: Uuid, seen: Entry, record: Record, x: Inputs, ghost request: Uuid, ghost w: W.World)
      returns (saved: bool, ghost worlds: seq<W.World>, ghost steps: seq<W.Step>)
      requires Mirrors(w) && id in journal.Memory() && RunOf(w, journal.agentId, id) == Some(W.Claiming(request, seen))
      requires (request, W.Granted(record)) in w.answers
      requires L.Ends(x.act.polls, lifecycle.Deadline(x.act.now, Some(Window(x))))
      modifies journal, lifecycle
      ensures |worlds| == |steps| + 1 && Path(worlds, steps) && worlds[0] == w && Mirrors(worlds[|steps|])
      ensures RunOf(worlds[|steps|], journal.agentId, id) == if saved then Some(W.Saved) else None
      ensures Accounted(Counted(w, id), Counted(worlds[|steps|], id), |old(lifecycle.effects)|, |lifecycle.effects|)
      ensures Counted(worlds[|steps|], id).0 > Counted(w, id).0 ==> record.state == Executing && record.closure.None?
      ensures var e := old(journal.Memory())[id].(claim := Some(record));
              var deadline := lifecycle.Deadline(x.act.now, Some(Window(x)));
              && id in journal.Memory() && AllSourced(steps, e, record, x, deadline)
              && (saved ==> Concluded(id, e, record, x, deadline, journal.Memory()[id].result))
      ensures Came(old(journal.Memory())[id], seen, record, x, saved, journal.Memory()[id],
                   Counted(worlds[|steps|], id).0 - Counted(w, id).0)
    {
      hide W.Enabled, W.Next, Path, Counted, ValidEntry, J.ImageOf, L.Ends, Sourced, Concluded, Takes, Claimed;
      ghost var e := journal.Memory()[id].(claim := Some(record));
      ghost var v;
      var ok;
      ok, v := TakeClaim(id, seen, record, x.claiming, request, w);
      worlds, steps := One(w, W.TakeClaim(journal.agentId, id, record, x.claiming));
      if !ok { return false, worlds, steps; }
      ghost var more;
      ghost var further;
      saved, more, further := Decide(id, record, x, v);
      SourcedSum(steps, further, e, record, x, lifecycle.Deadline(x.act.now, Some(Window(x))));
      worlds, steps := Joined(worlds, steps, more, further);
    }

    // ----- publishing -----

    /** An acknowledged result ends the run; any other is sent. */
    method Publish(id: Uuid, session: Uuid, ghost request: Uuid, ghost w: W.World)
      returns (upload: Option<CommandResult>, ghost step: W.Step, ghost v: W.World)
      requires Mirrors(w) && RunOf(w, journal.agentId, id) == Some(W.Saved) && request !in w.requests
      requires id in journal.Memory() && journal.Memory()[id].result.Some?
      ensures W.Enabled(w, step) && v == W.Next(w, step) && Mirrors(v)
      ensures upload == if journal.Memory()[id].acknowledged then None else journal.Memory()[id].result
      ensures RunOf(v, journal.agentId, id) == if upload.None? then None else Some(W.Publishing(request))
      ensures upload.Some? ==>
                request in v.requests
                && v.requests[request]
                   == W.ResultMessage(Identity(journal.environmentId, journal.agentId, session), upload.value)
    {
      hide W.Enabled, W.Next, ValidEntry, J.ImageOf;
      var index := journal.Find(id);
      if journal.entries[index].acknowledged {
        Concludes(w, journal.agentId, id);
        upload, step := None, W.Conclude(journal.agentId, id);
      } else {
        SendsResult(w, journal.agentId, id, session, request);
        upload, step := journal.entries[index].result, W.SendResult(journal.agentId, id, session, request);
      }
      v := W.Next(w, step);
    }

    method Received(id: Uuid, at: int, io: W.Io, ghost request: Uuid, ghost w: W.World) returns (ghost v: W.World)
      requires Mirrors(w) && RunOf(w, journal.agentId, id) == Some(W.Publishing(request)) && id in journal.Memory()
      requires (request, W.Received) in w.answers
      modifies journal
      ensures var s := W.TakeReceipt(journal.agentId, id, at, io);
              W.Enabled(w, s) && v == W.Next(w, s) && Mirrors(v) && RunOf(v, journal.agentId, id).None?
      ensures var (e, f) :=
              (old(journal.Memory())[id], if id in journal.Memory() then Some(journal.Memory()[id]) else None);
              f == Some(if io == W.Durable && e.result.Some?
                        then e.(acknowledged := true,
                                acknowledgedAt := Some(if e.acknowledgedAt.Some? then e.acknowledgedAt.value else at))
                        else e)
    {
      EntryIsValid(id);
      AcknowledgedIsWritten(journal.View(), id, at, io);
      hide J.ImageOf, ValidEntry, W.Enabled, W.Next, W.Write, J.Written;
      ghost var h := w.hosts[journal.agentId];
      TakesReceipt(w, journal.agentId, id, at, io, request);
      WriteParts(h, journal.View(), id, Acknowledge(h.memory[id], at), io, None, None);
      var ok := journal.Acknowledge(id, at, io);
      v := W.Next(w, W.TakeReceipt(journal.agentId, id, at, io));
    }
  }
}
