/** The joint invariant of ledger, hosts and network, and how it survives steps elsewhere. */
module Invariants {
  import opened Prelude
  import opened Wire
  import opened Journal
  import opened World
  import opened LedgerProofs
  import Json

  function Images(h: Host): set<Image> { h.disk + {h.memory} }

  /** Every content a crash may reveal shows the entry that memory shows. */
  ghost predicate Synced(h: Host, id: Uuid) {
    id in h.memory && forall image: Image :: image in h.disk ==> id in image && image[id] == h.memory[id]
  }

  // ----- one command on one host -----

  ghost predicate EntryInv(w: World, agent: Uuid, id: Uuid, e: Entry)
    requires agent in w.hosts
  {
    && ValidEntry(e)
    && e.command.commandId == id && e.agentId == agent && e.command.environmentId == w.hosts[agent].environmentId
    && id in w.history && SameCommand(e.command, w.history[id].command)
    && (e.claim.Some? ==>
          && Evolves(e.claim.value, w.history[id])
          && e.claim.value.owner.Some? && e.claim.value.owner.value.agentId == agent)
    && (e.retiredAt.Some? ==> Settled(w.history[id].state))
    && e.acknowledged == e.acknowledgedAt.Some?
    && (e.acknowledged ==> e.result.Some? && Settled(w.history[id].state))
    && (e.result.Some? ==> Json.WellFormed(e.result.value.evidence))
  }

  ghost predicate OwnedBy(w: World, agent: Uuid, id: Uuid) {
    id in w.history && w.history[id].owner.Some? && w.history[id].owner.value.agentId == agent
  }

  /** Nothing is left of the receipt that a pruning removed, or every content keeps the effect marker. */
  ghost predicate Marked(h: Host, id: Uuid) {
    id in h.pruned || forall image: Image :: image in Images(h) ==> id in image && image[id].effectStartedAt.Some?
  }

  ghost predicate Targets(h: Host, id: Uuid, t: StopTarget) {
    id in h.pruned || forall image: Image :: image in Images(h) ==> id in image && image[id].stopTarget == Some(t)
  }

  /** The result a host sent stays in every content of its journal; an unknown one may only be resolved. */
  ghost predicate Carries(h: Host, id: Uuid, result: CommandResult) {
    id in h.pruned
    || forall image: Image :: image in Images(h) ==>
         && id in image && image[id].result.Some?
         && (Terminal(result.state) ==> image[id].result.value == result)
  }

  ghost predicate Agrees(w: World, agent: Uuid, id: Uuid)
    requires agent in w.hosts && id in w.history
  {
    id in w.hosts[agent].pruned
    || forall image: Image :: image in Images(w.hosts[agent]) ==>
         id in image && image[id].result.Some? && Reports(w.history[id], image[id].result.value)
  }

  ghost predicate RunInv(w: World, agent: Uuid, id: Uuid, run: Run)
    requires agent in w.hosts
  {
    var h := w.hosts[agent];
    && id in h.memory && !Finished(h.memory[id])
    && var e := h.memory[id];
    match run
    case Claiming(request, entry) =>
      && request in w.requests && w.requests[request].ClaimMessage?
      && w.requests[request].id == id && w.requests[request].who.agentId == agent
      && entry == e
      && (id in h.pruned ==> forall record :: (request, Granted(record)) in w.answers ==> record.state != Executing)
    case Deciding(record) =>
      && e.claim == Some(record) && Synced(h, id)
      && (id in h.pruned ==> record.state != Executing)
    case Begun => Underway(w, h, id) && Synced(h, id) && Count(w.invocations, id) == 0
    case Invoked =>
      && Underway(w, h, id) && Synced(h, id)
      && Count(w.invocations, id) == 1 && Count(w.spawns, id) == 0 && Signals(w, id) == []
    case Targeted(target) =>
      && Underway(w, h, id) && Synced(h, id) && e.stopTarget == Some(target)
      && Count(w.invocations, id) == 1 && Count(w.spawns, id) == 0 && Signals(w, id) == []
    case Driven => Underway(w, h, id)
    case Broken => Underway(w, h, id)
    case Saved => Synced(h, id) && e.result.Some?
    case Publishing(request) =>
      && request in w.requests && w.requests[request].ResultMessage?
      && w.requests[request].who.agentId == agent && e.result == Some(w.requests[request].result)
  }

  /** Between the effect marker and the result. */
  ghost predicate Underway(w: World, h: Host, id: Uuid)
    requires id in h.memory
  {
    id !in h.pruned && h.memory[id].effectStartedAt.Some? && h.memory[id].result.None?
  }

  ghost predicate HostInv(w: World, agent: Uuid, id: Uuid)
    requires agent in w.hosts
  {
    var h := w.hosts[agent];
    && (forall image: Image :: image in Images(h) && id in image ==> EntryInv(w, agent, id, image[id]))
    && (id in h.pruned ==> id in w.history && Settled(w.history[id].state))
    && (OwnedBy(w, agent, id) && Terminal(w.history[id].state) ==> Agrees(w, agent, id))
    && (OwnedBy(w, agent, id) && Count(w.invocations, id) > 0 ==> Marked(h, id))
    && (OwnedBy(w, agent, id) && Signals(w, id) != [] ==> Targets(h, id, Signals(w, id)[0]))
    && (id in h.runs ==> RunInv(w, agent, id, h.runs[id]))
  }

  // ----- one command everywhere -----

  ghost predicate IdInv(w: World, id: Uuid) {
    && (id in w.ledger.rows ==> id in w.history && w.history[id] == w.ledger.rows[id])
    && (id in w.history ==>
          && ValidRecord(w.history[id]) && w.history[id].command.commandId == id
          && (id !in w.ledger.rows ==> Settled(w.history[id].state))
          && (w.history[id].owner.Some? ==>
                && w.history[id].owner.value.agentId in w.hosts
                && w.hosts[w.history[id].owner.value.agentId].environmentId == w.history[id].command.environmentId))
    && Count(w.invocations, id) <= 1
    && Count(w.spawns, id) <= Count(w.invocations, id)
    && |Signals(w, id)| <= Count(w.invocations, id)
    && (Count(w.invocations, id) > 0 ==> id in w.history && w.history[id].owner.Some?)
  }

  ghost predicate RequestInv(w: World, request: Uuid)
    requires request in w.requests
  {
    var m := w.requests[request];
    && m.who.agentId in w.hosts && m.who.environmentId == w.hosts[m.who.agentId].environmentId
    && match m
       case ClaimMessage(who, id) => true
       case ResultMessage(who, result) =>
         && ProperResult(result.commandId, result)
         && Carries(w.hosts[who.agentId], result.commandId, result)
  }

  ghost predicate AnswerInv(w: World, request: Uuid, answer: Answer) {
    && request in w.requests
    && match answer
       case Granted(record) =>
         && w.requests[request].ClaimMessage?
         && var (who, id) := (w.requests[request].who, w.requests[request].id);
         && id in w.history && Evolves(record, w.history[id]) && ValidRecord(record)
         && record.owner.Some? && record.owner.value.agentId == who.agentId
       case DeadlineElapsed =>
         && w.requests[request].ClaimMessage?
         && w.requests[request].id in w.history && Settled(w.history[w.requests[request].id].state)
       case Received =>
         && w.requests[request].ResultMessage?
         && w.requests[request].result.commandId in w.history
         && Settled(w.history[w.requests[request].result.commandId].state)
  }

  ghost predicate Inv(w: World) {
    && Valid(w.ledger)
    && (forall id :: IdInv(w, id))
    && (forall agent, id :: agent in w.hosts ==> HostInv(w, agent, id))
    && (forall request :: request in w.requests ==> RequestInv(w, request))
    && (forall request, answer :: (request, answer) in w.answers ==> AnswerInv(w, request, answer))
    && (forall c :: c in w.deliveries ==> c.commandId in w.history && w.history[c.commandId].command == c)
  }

  // ----- what a step may leave alone -----

  /** The later world keeps every record, request and answer of the earlier one. */
  ghost predicate Later(w: World, v: World) {
    && (forall id :: id in w.history ==> id in v.history && Evolves(w.history[id], v.history[id]))
    && (forall request :: request in w.requests ==> request in v.requests && v.requests[request] == w.requests[request])
    && w.answers <= v.answers
    && (forall agent :: agent in w.hosts ==>
        agent in v.hosts && v.hosts[agent].environmentId == w.hosts[agent].environmentId)
  }

  function Look(image: Image, id: Uuid): Option<Entry> { if id in image then Some(image[id]) else None }

  /** The host changed, but not where this command is concerned. */
  ghost predicate Framed(h: Host, g: Host, id: Uuid) {
    && Look(g.memory, id) == Look(h.memory, id)
    && (forall image: Image :: image in g.disk ==> image in h.disk || Look(image, id) == Look(h.memory, id))
    && (id in g.runs <==> id in h.runs) && (id in g.runs ==> g.runs[id] == h.runs[id])
    && (id in g.pruned <==> id in h.pruned)
    && g.environmentId == h.environmentId
  }

  /** An answer given in the step shows the row as the step leaves it. */
  ghost predicate NewAnswer(w: World, v: World, request: Uuid, record: Record) {
    || (request, Granted(record)) in w.answers
    || (&& request in v.requests && v.requests[request].ClaimMessage?
        && record.command.commandId == v.requests[request].id
        && v.requests[request].id in v.history && record.state == v.history[v.requests[request].id].state)
  }

  /** Nothing was counted for this command. */
  ghost predicate Undisturbed(w: World, v: World, id: Uuid) {
    && Count(v.invocations, id) == Count(w.invocations, id)
    && Count(v.spawns, id) == Count(w.spawns, id)
    && Signals(v, id) == Signals(w, id)
  }

  lemma EntryKept(w: World, v: World, agent: Uuid, id: Uuid, e: Entry)
    requires agent in w.hosts && EntryInv(w, agent, id, e) && Later(w, v)
    ensures agent in v.hosts && EntryInv(v, agent, id, e)
  {
    if e.claim.Some? { EvolvesTransitive(e.claim.value, w.history[id], v.history[id]); }
  }

  lemma FramedImage(h: Host, g: Host, id: Uuid, image: Image) returns (before: Image)
    requires Framed(h, g, id) && image in Images(g)
    ensures before in Images(h) && Look(before, id) == Look(image, id)
  {
    before := if image in h.disk then image else h.memory;
  }

  lemma FramedKeeps(h: Host, g: Host, id: Uuid)
    requires Framed(h, g, id)
    ensures Marked(h, id) ==> Marked(g, id)
    ensures forall t: StopTarget :: Targets(h, id, t) ==> Targets(g, id, t)
    ensures forall result: CommandResult :: Carries(h, id, result) ==> Carries(g, id, result)
    ensures Synced(h, id) ==> Synced(g, id)
  {
    forall image | image in Images(g)
      ensures exists before :: before in Images(h) && Look(before, id) == Look(image, id)
    {
      var before := FramedImage(h, g, id, image);
    }
  }

  lemma AgreesKept(w: World, v: World, agent: Uuid, id: Uuid)
    requires agent in w.hosts && Later(w, v) && Framed(w.hosts[agent], v.hosts[agent], id)
    requires id in w.history && Terminal(w.history[id].state) && Agrees(w, agent, id)
    ensures Agrees(v, agent, id)
  {
    var h, g := w.hosts[agent], v.hosts[agent];
    if id !in g.pruned {
      forall image: Image | image in Images(g)
        ensures id in image && image[id].result.Some? && Reports(v.history[id], image[id].result.value)
      {
        var before := FramedImage(h, g, id, image);
      }
    }
  }

  lemma EntriesKept(w: World, v: World, agent: Uuid, id: Uuid)
    requires agent in w.hosts && Later(w, v) && Framed(w.hosts[agent], v.hosts[agent], id)
    requires forall image: Image :: image in Images(w.hosts[agent]) && id in image ==> EntryInv(w, agent, id, image[id])
    ensures forall image: Image :: image in Images(v.hosts[agent]) && id in image ==> EntryInv(v, agent, id, image[id])
  {
    forall image: Image | image in Images(v.hosts[agent]) && id in image ensures EntryInv(v, agent, id, image[id]) {
      var before := FramedImage(w.hosts[agent], v.hosts[agent], id, image);
      EntryKept(w, v, agent, id, before[id]);
    }
  }

  lemma RunKept(w: World, v: World, agent: Uuid, id: Uuid)
    requires agent in w.hosts && Later(w, v) && Framed(w.hosts[agent], v.hosts[agent], id) && Undisturbed(w, v, id)
    requires id in w.hosts[agent].pruned ==> id in w.history && Settled(w.history[id].state)
    requires forall request, record :: (request, Granted(record)) in v.answers ==> NewAnswer(w, v, request, record)
    requires id in w.hosts[agent].runs && RunInv(w, agent, id, w.hosts[agent].runs[id])
    ensures RunInv(v, agent, id, v.hosts[agent].runs[id])
  {
    FramedKeeps(w.hosts[agent], v.hosts[agent], id);
  }

  /** A step elsewhere keeps what holds of a command on a host. */
  lemma HostKept(w: World, v: World, agent: Uuid, id: Uuid)
    requires agent in w.hosts && HostInv(w, agent, id) && IdInv(w, id)
    requires Later(w, v) && Framed(w.hosts[agent], v.hosts[agent], id) && Undisturbed(w, v, id)
    requires OwnedBy(v, agent, id) && Terminal(v.history[id].state) ==>
               (OwnedBy(w, agent, id) && Terminal(w.history[id].state)) || Agrees(v, agent, id)
    requires forall request, record :: (request, Granted(record)) in v.answers ==> NewAnswer(w, v, request, record)
    ensures HostInv(v, agent, id)
  {
    hide Framed, EntryInv, RunInv, Agrees, Marked, Targets;
    EntriesKept(w, v, agent, id);
    FramedPruned(w.hosts[agent], v.hosts[agent], id);
    FramedKeeps(w.hosts[agent], v.hosts[agent], id);
    if OwnedBy(w, agent, id) && Terminal(w.history[id].state) { AgreesKept(w, v, agent, id); }
    if id in w.hosts[agent].runs { RunKept(w, v, agent, id); }
  }

  lemma FramedPruned(h: Host, g: Host, id: Uuid)
    requires Framed(h, g, id)
    ensures (id in g.pruned <==> id in h.pruned) && (id in g.runs <==> id in h.runs)
  {
  }
}
