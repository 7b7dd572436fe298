/**
 The fleet ledger, any number of agent hosts and the network between them as
 one transition system. Requests and answers may be lost, repeated or delivered
 late; a host may crash between any two steps; a journal write that fails may
 still have reached the disk.
 */
module World {
  import opened Prelude
  import opened Wire
  import opened Journal
  import opened Evidence
  import Json
  import L = Ledger

  /** What the executor sends; each has its own fresh request identifier. */
  datatype Message = ClaimMessage(who: Identity, id: Uuid) | ResultMessage(who: Identity, result: CommandResult)

  datatype Answer = Granted(record: Record) | DeadlineElapsed | Received

  /** Where one executor run stands; it is lost in a crash. */
  datatype Run =
    | Claiming(request: Uuid, entry: Entry)
    | Deciding(record: Record)
    | Begun
    | Invoked
    | Targeted(target: StopTarget)
    | Driven
    | Broken
    | Saved
    | Publishing(request: Uuid)

  /** `disk` holds every content a crash may reveal. `pruned` remembers which
      receipts were ever removed. */
  datatype Host = Host(environmentId: Uuid, memory: Image, disk: set<Image>, runs: map<Uuid, Run>, pruned: set<Uuid>)

  datatype World = World(
    ledger: L.Ledger,
    history: map<Uuid, Record>,
    deliveries: set<Command>,
    requests: map<Uuid, Message>,
    answers: set<(Uuid, Answer)>,
    hosts: map<Uuid, Host>,
    invocations: map<Uuid, nat>,
    spawns: map<Uuid, nat>,
    signals: map<Uuid, seq<StopTarget>>)

  const INITIAL := World(L.EMPTY, map[], {}, map[], {}, map[], map[], map[], map[])

  /** How a journal write ends: synced, refused before the rename, or failed after it. */
  datatype Io = Durable | Lost | Ambiguous

  function Count(m: map<Uuid, nat>, id: Uuid): nat { if id in m then m[id] else 0 }

  function Signals(w: World, id: Uuid): seq<StopTarget> { if id in w.signals then w.signals[id] else [] }

  // ----- journal writes -----

  function Store(h: Host, next: Image, io: Io): Host {
    match io
    case Durable => h.(memory := next, disk := {next})
    case Lost => h
    case Ambiguous => h.(disk := h.disk + {next})
  }

  function SetRun(h: Host, id: Uuid, run: Option<Run>): Host {
    match run
    case None => h.(runs := h.runs - {id})
    case Some(r) => h.(runs := h.runs[id := r])
  }

  /** Changes one entry; a refused change or a failed write throws. */
  function Write(h: Host, id: Uuid, change: Option<Entry>, io: Io, done: Option<Run>, thrown: Option<Run>): Host {
    if change.None? || !ValidEntry(change.value) then SetRun(h, id, thrown)
    else SetRun(Store(h, h.memory[id := change.value], io), id, if io == Durable then done else thrown)
  }

  // ----- steps -----

  datatype Step =
    // the ledger's own steps
    | Operate(q: L.Request)
    | Poll(id: Uuid)
    | ServeClaim(request: Uuid, verified: bool, project: Option<L.Target>, seen: int, stamp: int)
    | ServeTransfer(request: Uuid, verified: bool, now: int)
    | ServeResult(request: Uuid, verified: bool, now: int)
    // a host's steps
    | Enroll(agent: Uuid, environmentId: Uuid)
    | Receive(agent: Uuid, command: Command, path: string, io: Io)
    | StartRun(agent: Uuid, id: Uuid, session: Uuid, request: Uuid)
    | GiveUp(agent: Uuid, id: Uuid)
    | TakeClaim(agent: Uuid, id: Uuid, record: Record, io: Io)
    | TakeExpiry(agent: Uuid, id: Uuid, at: int, io: Io)
    | RetireSettled(agent: Uuid, id: Uuid, at: int, io: Io)
    | Recovered(agent: Uuid, id: Uuid, result: CommandResult, basis: Basis, io: Io)
    | KeepResult(agent: Uuid, id: Uuid)
    | Resolve(agent: Uuid, id: Uuid, result: CommandResult, basis: Basis, io: Io)
    | Begin(agent: Uuid, id: Uuid, at: int, io: Io)
    | Invoke(agent: Uuid, id: Uuid)
    | Spawn(agent: Uuid, id: Uuid)
    | PersistTarget(agent: Uuid, id: Uuid, target: StopTarget, io: Io)
    | Signal(agent: Uuid, id: Uuid)
    | Finish(agent: Uuid, id: Uuid, result: CommandResult, basis: Basis, io: Io)
    | SendResult(agent: Uuid, id: Uuid, session: Uuid, request: Uuid)
    | Conclude(agent: Uuid, id: Uuid)
    | TakeReceipt(agent: Uuid, id: Uuid, at: int, io: Io)
    | PruneJournal(agent: Uuid, cutoff: int, io: Io)
    | Crash(agent: Uuid, image: Image)

  /** Three steps save a result and differ only in when they may. */
  predicate Saves(s: Step) { s.Recovered? || s.Resolve? || s.Finish? }

  predicate Running(w: World, agent: Uuid, id: Uuid) {
    agent in w.hosts && id in w.hosts[agent].memory && id in w.hosts[agent].runs
  }

  ghost predicate ProperResult(id: Uuid, result: CommandResult) {
    result.commandId == id && Reportable(result.state) && Json.WellFormed(result.evidence)
  }

  /** The claim reply already closes the matter for this entry. */
  predicate MustRetire(e: Entry, record: Record) {
    || record.closure.Some?
    || ((e.result.None? || e.result.value.state == Unknown) && Terminal(record.state))
  }

  /** A retained unknown outcome whose effect may have happened is inspected again. */
  predicate Inspectable(e: Entry) {
    e.result.Some? && e.result.value.state == Unknown && e.effectStartedAt.Some?
  }

  ghost predicate Enabled(w: World, s: Step) {
    match s
    case Operate(q) =>
      !q.DoClaim? && !q.DoPublish? && !q.DoTransfer? && (q.DoSubmit? ==> q.id !in w.history)
    case Poll(id) => id in w.ledger.rows && w.ledger.rows[id].state == Accepted
    case ServeClaim(request, _, _, _, _) => request in w.requests && w.requests[request].ClaimMessage?
    case ServeTransfer(request, _, _) => request in w.requests && w.requests[request].ResultMessage?
    case ServeResult(request, _, _) => request in w.requests && w.requests[request].ResultMessage?
    case Enroll(agent, _) => agent !in w.hosts
    case Receive(agent, command, path, _) =>
      && agent in w.hosts && command in w.deliveries && command.environmentId == w.hosts[agent].environmentId
      && command.commandId !in w.hosts[agent].memory && path != "" && path[0] == '/'
    case StartRun(agent, id, _, request) =>
      && agent in w.hosts && request !in w.requests
      && var h := w.hosts[agent];
      && id in h.memory && id !in h.runs && !Finished(h.memory[id])
      && forall k :: k in h.runs && k in h.memory ==>
         h.memory[k].command.localProjectId != h.memory[id].command.localProjectId
    case GiveUp(agent, id) =>
      Running(w, agent, id) && (w.hosts[agent].runs[id].Claiming? || w.hosts[agent].runs[id].Publishing?)
    case TakeClaim(agent, id, record, _) =>
      && Running(w, agent, id) && w.hosts[agent].runs[id].Claiming?
      && (w.hosts[agent].runs[id].request, Granted(record)) in w.answers
    case TakeExpiry(agent, id, _, _) =>
      && Running(w, agent, id) && w.hosts[agent].runs[id].Claiming?
      && (w.hosts[agent].runs[id].request, DeadlineElapsed) in w.answers
    case RetireSettled(agent, id, _, _) =>
      && Running(w, agent, id) && w.hosts[agent].runs[id].Deciding?
      && MustRetire(w.hosts[agent].memory[id], w.hosts[agent].runs[id].record)
    case Recovered(agent, id, result, basis, _) =>
      && Running(w, agent, id) && w.hosts[agent].runs[id].Deciding? && ProperResult(id, result)
      && !MustRetire(w.hosts[agent].memory[id], w.hosts[agent].runs[id].record)
      && Inspectable(w.hosts[agent].memory[id]) && Terminal(result.state)
      && RestsOnTarget(w.hosts[agent].memory[id], result.state, basis)
    case KeepResult(agent, id) =>
      && Running(w, agent, id) && w.hosts[agent].runs[id].Deciding?
      && !MustRetire(w.hosts[agent].memory[id], w.hosts[agent].runs[id].record)
      && w.hosts[agent].memory[id].result.Some?
    case Resolve(agent, id, result, basis, _) =>
      && Running(w, agent, id) && w.hosts[agent].runs[id].Deciding? && ProperResult(id, result)
      && var (e, record) := (w.hosts[agent].memory[id], w.hosts[agent].runs[id].record);
      && !MustRetire(e, record) && e.result.None?
      && (e.effectStartedAt.Some? || (record.state != Executing && result.state == Unknown))
      && RestsOnTarget(e, result.state, basis)
    case Begin(agent, id, _, _) =>
      && Running(w, agent, id) && w.hosts[agent].runs[id].Deciding?
      && var (e, record) := (w.hosts[agent].memory[id], w.hosts[agent].runs[id].record);
      && !MustRetire(e, record) && e.result.None? && e.effectStartedAt.None? && record.state == Executing
    case Invoke(agent, id) => Running(w, agent, id) && w.hosts[agent].runs[id].Begun?
    case Spawn(agent, id) =>
      Running(w, agent, id) && w.hosts[agent].runs[id].Invoked? && w.hosts[agent].memory[id].command.operation == Start
    case PersistTarget(agent, id, _, _) =>
      Running(w, agent, id) && w.hosts[agent].runs[id].Invoked? && w.hosts[agent].memory[id].command.operation == Stop
    case Signal(agent, id) => Running(w, agent, id) && w.hosts[agent].runs[id].Targeted?
    case Finish(agent, id, result, basis, _) =>
      && Running(w, agent, id) && ProperResult(id, result)
      && (w.hosts[agent].runs[id].Invoked? || w.hosts[agent].runs[id].Driven?
          || (w.hosts[agent].runs[id].Broken? && result.state == Unknown))
      && Rests(w.hosts[agent].memory[id], result.state, basis)
    case SendResult(agent, id, _, request) =>
      && Running(w, agent, id) && w.hosts[agent].runs[id].Saved? && request !in w.requests
      && w.hosts[agent].memory[id].result.Some? && !w.hosts[agent].memory[id].acknowledged
    case Conclude(agent, id) =>
      Running(w, agent, id) && w.hosts[agent].runs[id].Saved? && w.hosts[agent].memory[id].acknowledged
    case TakeReceipt(agent, id, _, _) =>
      && Running(w, agent, id) && w.hosts[agent].runs[id].Publishing?
      && (w.hosts[agent].runs[id].request, Received) in w.answers
    case PruneJournal(agent, _, _) => agent in w.hosts
    case Crash(agent, image) => agent in w.hosts && image in w.hosts[agent].disk
  }

  /** The ledger moved; its rows are the latest records. Pruning first records what expired. */
  function WithLedger(w: World, latest: map<Uuid, Record>, l: L.Ledger): World {
    w.(ledger := l, history := w.history + latest)
  }

  function WithHost(w: World, agent: Uuid, h: Host): World { w.(hosts := w.hosts[agent := h]) }

  ghost function Operated(w: World, q: L.Request): World {
    var l := L.Next(w.ledger, q);
    WithLedger(w, if q.DoPrune? then L.Recover(w.ledger, q.now).rows else l.rows, l)
  }

  function ServedClaim(w: World, request: Uuid, verified: bool, target: Option<L.Target>, seen: int, stamp: int): World
    requires request in w.requests && w.requests[request].ClaimMessage?
  {
    var m := w.requests[request];
    var (l, reply) := L.Claim(w.ledger, m.who, m.id, verified, target, seen, stamp);
    var v := WithLedger(w, l.rows, l);
    if reply.Ok? then v.(answers := v.answers + {(request, Granted(reply.value))})
    else if reply == Err(CommandExpired) then v.(answers := v.answers + {(request, DeadlineElapsed)})
    else v
  }

  function ServedTransfer(w: World, request: Uuid, verified: bool, now: int): World
    requires request in w.requests && w.requests[request].ResultMessage?
  {
    var m := w.requests[request];
    var (l, reply) := L.Transfer(w.ledger, m.who, m.result.commandId, verified, now);
    WithLedger(w, l.rows, l)
  }

  function ServedResult(w: World, request: Uuid, verified: bool, now: int): World
    requires request in w.requests && w.requests[request].ResultMessage?
  {
    var m := w.requests[request];
    var (l, reply) := L.Publish(w.ledger, m.who, m.result, verified, now);
    var v := WithLedger(w, l.rows, l);
    if reply.Ok? then v.(answers := v.answers + {(request, Received)}) else v
  }

  function ClaimTaken(h: Host, id: Uuid, record: Record, io: Io): Host
    requires id in h.memory && id in h.runs && h.runs[id].Claiming?
  {
    var seen := h.runs[id].entry;
    if !SameCommand(seen.command, record.command) || record.owner.None?
        || record.owner.value.agentId != seen.agentId then
      SetRun(h, id, None)
    else Write(h, id, RecordClaim(h.memory[id], record), io, Some(Deciding(record)), None)
  }

  function ExpiryTaken(h: Host, id: Uuid, at: int, io: Io): Host
    requires id in h.memory && id in h.runs && h.runs[id].Claiming?
  {
    var seen := h.runs[id].entry;
    if Journal.Claimed(seen) || seen.effectStartedAt.Some? then SetRun(h, id, None)
    else Write(h, id, Some(Retire(h.memory[id], at)), io, None, None)
  }

  function EffectBegun(h: Host, id: Uuid, at: int, io: Io): Host
    requires id in h.memory
  {
    var change := BeginEffect(h.memory[id], at);
    if change.None? then SetRun(h, id, None)
    else Write(h, id, Some(change.value.0), io, Some(Begun), None)
  }

  function JournalPruned(h: Host, cutoff: int, io: Io): Host {
    var next := Journal.Pruned(h.memory, cutoff);
    var stored := Store(h, next, io);
    if io == Lost then stored else stored.(pruned := h.pruned + (h.memory.Keys - next.Keys))
  }

  ghost function Next(w: World, s: Step): World
    requires Enabled(w, s)
  {
    match s
    case Operate(q) => Operated(w, q)
    case Poll(id) => w.(deliveries := w.deliveries + {w.ledger.rows[id].command})
    case ServeClaim(request, verified, project, seen, stamp) => ServedClaim(w, request, verified, project, seen, stamp)
    case ServeTransfer(request, verified, now) => ServedTransfer(w, request, verified, now)
    case ServeResult(request, verified, now) => ServedResult(w, request, verified, now)
    case Enroll(agent, environmentId) => WithHost(w, agent, Host(environmentId, map[], {map[]}, map[], {}))
    case Receive(agent, command, path, io) =>
      var h := w.hosts[agent];
      WithHost(w, agent, Store(h, h.memory[command.commandId := Receipt(command, agent, path)], io))
    case StartRun(agent, id, session, request) =>
      var h := w.hosts[agent];
      WithHost(w, agent, SetRun(h, id, Some(Claiming(request, h.memory[id]))))
        .(requests := w.requests[request := ClaimMessage(Identity(h.environmentId, agent, session), id)])
    case GiveUp(agent, id) => WithHost(w, agent, SetRun(w.hosts[agent], id, None))
    case TakeClaim(agent, id, record, io) => WithHost(w, agent, ClaimTaken(w.hosts[agent], id, record, io))
    case TakeExpiry(agent, id, at, io) => WithHost(w, agent, ExpiryTaken(w.hosts[agent], id, at, io))
    case RetireSettled(agent, id, at, io) =>
      var h := w.hosts[agent];
      WithHost(w, agent, Write(h, id, Some(Retire(h.memory[id], at)), io, None, None))
    case Recovered(agent, id, result, basis, io) =>
      var h := w.hosts[agent];
      WithHost(w, agent, Write(h, id, SaveResult(h.memory[id], result), io, Some(Saved), None))
    case KeepResult(agent, id) => WithHost(w, agent, SetRun(w.hosts[agent], id, Some(Saved)))
    case Resolve(agent, id, result, basis, io) =>
      var h := w.hosts[agent];
      WithHost(w, agent, Write(h, id, SaveResult(h.memory[id], result), io, Some(Saved), None))
    case Begin(agent, id, at, io) => WithHost(w, agent, EffectBegun(w.hosts[agent], id, at, io))
    case Invoke(agent, id) =>
      WithHost(w, agent, SetRun(w.hosts[agent], id, Some(Invoked)))
        .(invocations := w.invocations[id := Count(w.invocations, id) + 1])
    case Spawn(agent, id) =>
      WithHost(w, agent, SetRun(w.hosts[agent], id, Some(Driven)))
        .(spawns := w.spawns[id := Count(w.spawns, id) + 1])
    case PersistTarget(agent, id, target, io) =>
      var h := w.hosts[agent];
      WithHost(w, agent,
               Write(h, id, PersistStopTarget(h.memory[id], target), io, Some(Targeted(target)), Some(Broken)))
    case Signal(agent, id) =>
      var h := w.hosts[agent];
      WithHost(w, agent, SetRun(h, id, Some(Driven)))
        .(signals := w.signals[id := Signals(w, id) + [h.runs[id].target]])
    case Finish(agent, id, result, basis, io) =>
      var h := w.hosts[agent];
      WithHost(w, agent, Write(h, id, SaveResult(h.memory[id], result), io, Some(Saved), None))
    case SendResult(agent, id, session, request) =>
      var h := w.hosts[agent];
      WithHost(w, agent, SetRun(h, id, Some(Publishing(request))))
        .(requests :=
          w.requests[request := ResultMessage(Identity(h.environmentId, agent, session), h.memory[id].result.value)])
    case Conclude(agent, id) => WithHost(w, agent, SetRun(w.hosts[agent], id, None))
    case TakeReceipt(agent, id, at, io) =>
      var h := w.hosts[agent];
      WithHost(w, agent, Write(h, id, Acknowledge(h.memory[id], at), io, None, None))
    case PruneJournal(agent, cutoff, io) => WithHost(w, agent, JournalPruned(w.hosts[agent], cutoff, io))
    case Crash(agent, image) =>
      WithHost(w, agent, w.hosts[agent].(memory := image, runs := map[]))
  }

  // ----- runs -----

  /** The worlds of one execution, from an empty fleet. */
  ghost predicate Execution(worlds: seq<World>, steps: seq<Step>) {
    && |worlds| == |steps| + 1
    && worlds[0] == INITIAL
    && forall k :: 0 <= k < |steps| ==> Enabled(worlds[k], steps[k]) && worlds[k + 1] == Next(worlds[k], steps[k])
  }
}
