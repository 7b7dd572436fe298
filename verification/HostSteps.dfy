/** Every step of a host keeps the joint invariant. */
module HostSteps {
  import opened Prelude
  import opened Wire
  import opened Journal
  import opened World
  import opened LedgerProofs
  import opened Invariants
  import LedgerSteps

  // ----- what a write does to the images -----

  /** Every content is an earlier one, or shows the entry of memory grown. */
  ghost predicate Grown(h: Host, g: Host, id: Uuid) {
    && g.pruned == h.pruned
    && forall image: Image :: image in Images(g) ==>
         image in Images(h) || (id in image && id in h.memory && Grows(h.memory[id], image[id]))
  }

  lemma GrownKeeps(h: Host, g: Host, id: Uuid)
    requires Grown(h, g, id)
    ensures Marked(h, id) ==> Marked(g, id)
    ensures forall t: StopTarget :: Targets(h, id, t) ==> Targets(g, id, t)
    ensures forall result: CommandResult :: Carries(h, id, result) ==> Carries(g, id, result)
  {
    assert h.memory in Images(h);
  }

  lemma GrownAgrees(w: World, v: World, agent: Uuid, id: Uuid)
    requires agent in w.hosts && agent in v.hosts && Grown(w.hosts[agent], v.hosts[agent], id)
    requires id in w.history && v.history == w.history && Terminal(w.history[id].state) && Agrees(w, agent, id)
    ensures Agrees(v, agent, id)
  {
    assert w.hosts[agent].memory in Images(w.hosts[agent]);
  }

  /** One entry is written; the others show what memory shows. */
  lemma StoreFrames(h: Host, id: Uuid, e: Entry, io: Io, run: Option<Run>)
    ensures var g := SetRun(Store(h, h.memory[id := e], io), id, run);
            && (forall k: Uuid :: k != id ==> Framed(h, g, k))
            && g.environmentId == h.environmentId && g.pruned == h.pruned
            && (forall image: Image :: image in Images(g) ==> image in Images(h) || (id in image && image[id] == e))
            && (id in h.memory && Grows(h.memory[id], e) ==> Grown(h, g, id))
            && (io == Durable ==> Synced(g, id) && g.memory[id] == e)
            && (io != Durable ==> g.memory == h.memory)
            && (run.Some? ==> id in g.runs && g.runs[id] == run.value)
            && (run.None? ==> id !in g.runs)
  {
  }

  lemma RunFrames(h: Host, id: Uuid, run: Option<Run>)
    ensures var g := SetRun(h, id, run);
            && (forall k: Uuid :: k != id ==> Framed(h, g, k))
            && g == h.(runs := g.runs) && Grown(h, g, id)
            && (run.Some? ==> id in g.runs && g.runs[id] == run.value)
            && (run.None? ==> id !in g.runs)
  {
  }

  // ----- what a step on one command leaves of the others -----

  /** The step touched one command of one host, and perhaps sent one request. */
  ghost predicate Touches(w: World, v: World, agent: Uuid, id: Uuid) {
    && agent in w.hosts && agent in v.hosts
    && v == w.(hosts := w.hosts[agent := v.hosts[agent]], requests := v.requests,
               invocations := v.invocations, spawns := v.spawns, signals := v.signals)
    && v.hosts[agent].environmentId == w.hosts[agent].environmentId
    && (forall k: Uuid :: k != id ==> Framed(w.hosts[agent], v.hosts[agent], k) && Undisturbed(w, v, k))
    && (forall request :: request in w.requests ==> request in v.requests && v.requests[request] == w.requests[request])
    && (forall result: CommandResult :: Carries(w.hosts[agent], id, result) ==> Carries(v.hosts[agent], id, result))
    && (Undisturbed(w, v, id) || OwnedBy(w, agent, id))
  }

  lemma TouchIsLater(w: World, v: World, agent: Uuid, id: Uuid)
    requires Inv(w) && Touches(w, v, agent, id)
    ensures Later(w, v)
    ensures forall request, record :: (request, Granted(record)) in v.answers ==> NewAnswer(w, v, request, record)
  {
    forall k | k in w.history ensures Evolves(w.history[k], v.history[k]) {
      assert IdInv(w, k);
      LedgerSteps.SelfEvolves(w.history[k]);
    }
  }

  /** Only the owner's host can be executing the command. */
  lemma NotExecuting(w: World, agent: Uuid, other: Uuid, id: Uuid)
    requires other in w.hosts && HostInv(w, other, id) && OwnedBy(w, agent, id) && other != agent
    requires id in w.hosts[other].runs
    ensures var run := w.hosts[other].runs[id]; !run.Begun? && !run.Invoked? && !run.Targeted?
  {
    var h := w.hosts[other];
    assert h.memory in Images(h);
    assert EntryInv(w, other, id, h.memory[id]);
  }

  lemma ElsewhereKept(w: World, v: World, agent: Uuid, id: Uuid, other: Uuid, k: Uuid)
    requires Inv(w) && Touches(w, v, agent, id) && other in w.hosts && (other != agent || k != id)
    ensures HostInv(v, other, k)
  {
    hide Inv, HostInv, IdInv, Agrees, NewAnswer;
    assert HostInv(w, other, k) && IdInv(w, k) by { Inside(w, other, k); }
    TouchIsLater(w, v, agent, id);
    assert Framed(w.hosts[other], v.hosts[other], k);
    if Undisturbed(w, v, k) {
      HostKept(w, v, other, k);
    } else {
      BystanderKept(w, v, agent, other, id);
    }
  }

  lemma Inside(w: World, agent: Uuid, id: Uuid)
    requires Inv(w) && agent in w.hosts
    ensures HostInv(w, agent, id) && IdInv(w, id)
  {
  }

  lemma BystanderKept(w: World, v: World, agent: Uuid, other: Uuid, id: Uuid)
    requires Touches(w, v, agent, id) && Later(w, v) && other in w.hosts && other != agent
    requires HostInv(w, other, id) && OwnedBy(w, agent, id)
    ensures HostInv(v, other, id)
  {
    TouchedParts(w, v, agent, id);
    assert v.hosts[other] == w.hosts[other] && !OwnedBy(v, other, id);
    EntriesKept(w, v, other, id);
    if id in w.hosts[other].runs { NotExecuting(w, agent, other, id); }
  }

  lemma RequestCarried(w: World, v: World, agent: Uuid, id: Uuid, request: Uuid)
    requires Touches(w, v, agent, id) && request in w.requests && RequestInv(w, request)
    ensures RequestInv(v, request)
  {
    var m := w.requests[request];
    if m.ResultMessage? && m.who.agentId == agent && m.result.commandId != id {
      FramedKeeps(w.hosts[agent], v.hosts[agent], m.result.commandId);
    }
  }

  lemma UntouchedId(w: World, v: World, agent: Uuid, id: Uuid, k: Uuid)
    requires IdInv(w, k) && Touches(w, v, agent, id) && k != id
    ensures IdInv(v, k)
  {
    TouchedParts(w, v, agent, id);
    assert Framed(w.hosts[agent], v.hosts[agent], k) && Undisturbed(w, v, k);
  }

  /** What remains to be shown of a step that touches one command of one host. */
  lemma TouchKeeps(w: World, v: World, agent: Uuid, id: Uuid)
    requires Inv(w) && Touches(w, v, agent, id)
    requires HostInv(v, agent, id) && IdInv(v, id)
    requires forall request :: request in v.requests && request !in w.requests ==> RequestInv(v, request)
    ensures Inv(v)
  {
    hide HostInv, IdInv, RequestInv, AnswerInv, Touches;
    assert v.ledger == w.ledger && v.history == w.history && v.deliveries == w.deliveries && v.answers == w.answers
           && v.hosts.Keys == w.hosts.Keys by { TouchedParts(w, v, agent, id); }
    TouchIsLater(w, v, agent, id);
    forall k ensures IdInv(v, k) {
      if k != id { UntouchedId(w, v, agent, id, k) by { assert IdInv(w, k); } }
    }
    forall other, k | other in v.hosts ensures HostInv(v, other, k) {
      if other != agent || k != id { ElsewhereKept(w, v, agent, id, other, k); }
    }
    forall request | request in v.requests ensures RequestInv(v, request) {
      if request in w.requests { RequestCarried(w, v, agent, id, request); }
    }
    forall request, answer | (request, answer) in v.answers ensures AnswerInv(v, request, answer) {
      LedgerSteps.AnswerKept(w, v, request, answer);
    }
  }

  lemma TouchedParts(w: World, v: World, agent: Uuid, id: Uuid)
    requires Touches(w, v, agent, id)
    ensures v.ledger == w.ledger && v.history == w.history && v.deliveries == w.deliveries && v.answers == w.answers
    ensures v.hosts.Keys == w.hosts.Keys
  {
  }

  // ----- writes of one entry -----

  /** The touched command itself, when its entry only grew. */
  lemma ActedHolds(w: World, v: World, agent: Uuid, id: Uuid)
    requires agent in w.hosts && HostInv(w, agent, id) && agent in v.hosts
    requires v == w.(hosts := v.hosts, requests := v.requests)
    requires Grown(w.hosts[agent], v.hosts[agent], id)
    requires v.hosts[agent].environmentId == w.hosts[agent].environmentId
    requires forall image: Image :: image in Images(v.hosts[agent]) && id in image ==>
               image in Images(w.hosts[agent]) || EntryInv(w, agent, id, image[id])
    requires id in v.hosts[agent].runs ==> RunInv(v, agent, id, v.hosts[agent].runs[id])
    ensures HostInv(v, agent, id)
  {
    hide Marked, Targets, Agrees, RunInv;
    GrownKeeps(w.hosts[agent], v.hosts[agent], id);
    if OwnedBy(w, agent, id) && Terminal(w.history[id].state) { GrownAgrees(w, v, agent, id); }
  }

  lemma WriteTouches(w: World, v: World, agent: Uuid, id: Uuid)
    requires agent in w.hosts && agent in v.hosts && Grown(w.hosts[agent], v.hosts[agent], id)
    requires v == w.(hosts := w.hosts[agent := v.hosts[agent]], requests := v.requests)
    requires v.hosts[agent].environmentId == w.hosts[agent].environmentId
    requires forall k: Uuid :: k != id ==> Framed(w.hosts[agent], v.hosts[agent], k)
    requires forall request :: request in w.requests ==>
             request in v.requests && v.requests[request] == w.requests[request]
    ensures Touches(w, v, agent, id)
  {
    GrownKeeps(w.hosts[agent], v.hosts[agent], id);
  }

  lemma WriteKeeps(
    w: World, agent: Uuid, id: Uuid, change: Option<Entry>, io: Io, done: Option<Run>, thrown: Option<Run>)
    requires Inv(w) && agent in w.hosts && id in w.hosts[agent].memory
    requires change.Some? && ValidEntry(change.value) ==>
               Grows(w.hosts[agent].memory[id], change.value) && EntryInv(w, agent, id, change.value)
    requires thrown.Some? ==>
               thrown == Some(Broken) && Underway(w, w.hosts[agent], id) && !Finished(w.hosts[agent].memory[id])
    requires var g := Write(w.hosts[agent], id, change, io, done, thrown);
             change.Some? && ValidEntry(change.value) && io == Durable && done.Some? && Synced(g, id)
               && g.memory[id] == change.value ==>
               RunInv(WithHost(w, agent, g), agent, id, done.value)
    ensures Inv(WithHost(w, agent, Write(w.hosts[agent], id, change, io, done, thrown)))
  {
    hide Inv, HostInv, IdInv, RequestInv, Grows, EntryInv, Touches, ValidEntry, Framed, Grown;
    var h := w.hosts[agent];
    var g := Write(h, id, change, io, done, thrown);
    var v := WithHost(w, agent, g);
    if change.None? || !ValidEntry(change.value) {
      RunFrames(h, id, thrown);
    } else {
      StoreFrames(h, id, change.value, io, if io == Durable then done else thrown);
    }
    Inside(w, agent, id);
    ActedHolds(w, v, agent, id);
    WriteTouches(w, v, agent, id);
    assert IdInv(v, id) by { IdElsewhere(w, v, agent, id); }
    TouchKeeps(w, v, agent, id);
  }

  lemma IdElsewhere(w: World, v: World, agent: Uuid, id: Uuid)
    requires IdInv(w, id) && agent in w.hosts && agent in v.hosts
    requires v == w.(hosts := w.hosts[agent := v.hosts[agent]], requests := v.requests)
    requires v.hosts[agent].environmentId == w.hosts[agent].environmentId
    ensures IdInv(v, id)
  {
  }

  /** A step that only moves the run, and perhaps sends a request. */
  lemma RunMoveKeeps(w: World, v: World, agent: Uuid, id: Uuid, run: Option<Run>)
    requires Inv(w) && agent in w.hosts
    requires v == WithHost(w, agent, SetRun(w.hosts[agent], id, run)).(requests := v.requests)
    requires forall request :: request in w.requests ==>
             request in v.requests && v.requests[request] == w.requests[request]
    requires run.Some? ==> RunInv(v, agent, id, run.value)
    requires forall request :: request in v.requests && request !in w.requests ==> RequestInv(v, request)
    ensures Inv(v)
  {
    hide Inv, HostInv, IdInv, RequestInv, EntryInv, Touches, Framed, Grown;
    RunFrames(w.hosts[agent], id, run);
    Inside(w, agent, id);
    ActedHolds(w, v, agent, id);
    WriteTouches(w, v, agent, id);
    IdElsewhere(w, v, agent, id);
    TouchKeeps(w, v, agent, id);
  }

  // ----- one lemma for each step -----

  /** What the invariant says of the run at hand. */
  lemma Current(w: World, agent: Uuid, id: Uuid)
    requires Inv(w) && Running(w, agent, id)
    ensures HostInv(w, agent, id) && IdInv(w, id) && RunInv(w, agent, id, w.hosts[agent].runs[id])
    ensures EntryInv(w, agent, id, w.hosts[agent].memory[id])
  {
    assert w.hosts[agent].memory in Images(w.hosts[agent]);
  }

  lemma Answered(w: World, request: Uuid, answer: Answer)
    requires Inv(w) && (request, answer) in w.answers
    ensures AnswerInv(w, request, answer)
  {
  }

  lemma StartRunKeeps(w: World, agent: Uuid, id: Uuid, session: Uuid, request: Uuid)
    requires Inv(w) && agent in w.hosts && request !in w.requests
    requires id in w.hosts[agent].memory && !Finished(w.hosts[agent].memory[id])
    ensures var h := w.hosts[agent];
            Inv(WithHost(w, agent, SetRun(h, id, Some(Claiming(request, h.memory[id]))))
                  .(requests := w.requests[request := ClaimMessage(Identity(h.environmentId, agent, session), id)]))
  {
    hide HostInv, IdInv, RequestInv;
    var h := w.hosts[agent];
    var v := WithHost(w, agent, SetRun(h, id, Some(Claiming(request, h.memory[id]))))
               .(requests := w.requests[request := ClaimMessage(Identity(h.environmentId, agent, session), id)]);
    var run := Some(Claiming(request, h.memory[id]));
    assert forall answer :: (request, answer) in w.answers ==> AnswerInv(w, request, answer);
    assert RequestInv(v, request) by { ClaimRequestHolds(v, request); }
    assert RunInv(v, agent, id, run.value);
    RunMoveKeeps(w, v, agent, id, run);
  }

  lemma ClaimRequestHolds(w: World, request: Uuid)
    requires request in w.requests && w.requests[request].ClaimMessage?
    requires w.requests[request].who.agentId in w.hosts
    requires w.requests[request].who.environmentId == w.hosts[w.requests[request].who.agentId].environmentId
    ensures RequestInv(w, request)
  {
  }

  lemma DropRunKeeps(w: World, agent: Uuid, id: Uuid)
    requires Inv(w) && agent in w.hosts
    ensures Inv(WithHost(w, agent, SetRun(w.hosts[agent], id, None)))
  {
    hide Inv;
    RunMoveKeeps(w, WithHost(w, agent, SetRun(w.hosts[agent], id, None)), agent, id, None);
  }

  lemma KeepResultKeeps(w: World, agent: Uuid, id: Uuid)
    requires Inv(w) && Running(w, agent, id) && w.hosts[agent].runs[id].Deciding?
             && w.hosts[agent].memory[id].result.Some?
    ensures Inv(WithHost(w, agent, SetRun(w.hosts[agent], id, Some(Saved))))
  {
    hide Inv, EntryInv, HostInv, IdInv;
    Current(w, agent, id);
    RunMoveKeeps(w, WithHost(w, agent, SetRun(w.hosts[agent], id, Some(Saved))), agent, id, Some(Saved));
  }

  lemma SendResultKeeps(w: World, v: World, agent: Uuid, id: Uuid, session: Uuid, request: Uuid)
    requires Inv(w) && Running(w, agent, id) && w.hosts[agent].runs[id].Saved? && request !in w.requests
    requires w.hosts[agent].memory[id].result.Some?
    requires v == WithHost(w, agent, SetRun(w.hosts[agent], id, Some(Publishing(request))))
                    .(requests :=
                      w.requests[request := ResultMessage(Identity(w.hosts[agent].environmentId, agent, session),
                                                          w.hosts[agent].memory[id].result.value)])
    ensures Inv(v)
  {
    hide Inv, HostInv, IdInv;
    Current(w, agent, id);
    assert RequestInv(v, request) by { SyncedCarries(w.hosts[agent], v.hosts[agent], id); }
    RunMoveKeeps(w, v, agent, id, Some(Publishing(request)));
  }

  lemma SyncedCarries(h: Host, g: Host, id: Uuid)
    requires Synced(h, id) && h.memory[id].result.Some? && g == h.(runs := g.runs)
    ensures Carries(g, id, h.memory[id].result.value)
  {
  }

  lemma TakeClaimKeeps(w: World, agent: Uuid, id: Uuid, record: Record, io: Io)
    requires Inv(w) && Running(w, agent, id) && w.hosts[agent].runs[id].Claiming?
    requires (w.hosts[agent].runs[id].request, Granted(record)) in w.answers
    ensures Inv(WithHost(w, agent, ClaimTaken(w.hosts[agent], id, record, io)))
  {
    hide Inv, HostInv, IdInv;
    Current(w, agent, id);
    var h := w.hosts[agent];
    var seen := h.runs[id].entry;
    Answered(w, h.runs[id].request, Granted(record));
    if !SameCommand(seen.command, record.command) || record.owner.None? || record.owner.value.agentId != seen.agentId {
      DropRunKeeps(w, agent, id);
    } else {
      if RecordClaim(seen, record).Some? { RecordClaimGrows(seen, record); }
      WriteKeeps(w, agent, id, RecordClaim(h.memory[id], record), io, Some(Deciding(record)), None);
    }
  }

  lemma RetireKeeps(w: World, agent: Uuid, id: Uuid, at: int, io: Io)
    requires Inv(w) && Running(w, agent, id) && id in w.history && Settled(w.history[id].state)
    ensures Inv(WithHost(w, agent,
                         Write(w.hosts[agent], id, Some(Retire(w.hosts[agent].memory[id], at)), io, None, None)))
  {
    hide Inv;
    Current(w, agent, id);
    RetireGrows(w.hosts[agent].memory[id], at);
    WriteKeeps(w, agent, id, Some(Retire(w.hosts[agent].memory[id], at)), io, None, None);
  }

  lemma TakeExpiryKeeps(w: World, agent: Uuid, id: Uuid, at: int, io: Io)
    requires Inv(w) && Running(w, agent, id) && w.hosts[agent].runs[id].Claiming?
    requires (w.hosts[agent].runs[id].request, DeadlineElapsed) in w.answers
    ensures Inv(WithHost(w, agent, ExpiryTaken(w.hosts[agent], id, at, io)))
  {
    hide Inv, HostInv, IdInv, EntryInv;
    Current(w, agent, id);
    Answered(w, w.hosts[agent].runs[id].request, DeadlineElapsed);
    DropRunKeeps(w, agent, id);
    RetireKeeps(w, agent, id, at, io);
  }

  lemma RetireSettledKeeps(w: World, agent: Uuid, id: Uuid, at: int, io: Io)
    requires Inv(w) && Running(w, agent, id) && w.hosts[agent].runs[id].Deciding?
    requires MustRetire(w.hosts[agent].memory[id], w.hosts[agent].runs[id].record)
    ensures Inv(WithHost(w, agent,
                         Write(w.hosts[agent], id, Some(Retire(w.hosts[agent].memory[id], at)), io, None, None)))
  {
    hide Inv, HostInv, IdInv;
    Current(w, agent, id);
    RetireKeeps(w, agent, id, at, io);
  }

  /** Saving a result on an entry without one, or resolving an unknown one. */
  lemma SavingKeeps(w: World, agent: Uuid, id: Uuid, result: CommandResult, io: Io)
    requires Inv(w) && Running(w, agent, id) && ProperResult(id, result)
    requires var e := w.hosts[agent].memory[id];
             e.result.None? || (e.result.value.state == Unknown && Terminal(result.state))
    ensures Inv(WithHost(w, agent,
                         Write(w.hosts[agent], id, SaveResult(w.hosts[agent].memory[id], result), io, Some(Saved),
                               None)))
  {
    hide Inv, HostInv, IdInv;
    Current(w, agent, id);
    var e := w.hosts[agent].memory[id];
    if SaveResult(e, result).Some? { SaveResultGrows(e, result); }
    WriteKeeps(w, agent, id, SaveResult(e, result), io, Some(Saved), None);
  }

  /** A command with an executing claim and no marker was never invoked. */
  lemma NotYetInvoked(w: World, agent: Uuid, id: Uuid)
    requires agent in w.hosts && id in w.hosts[agent].memory && HostInv(w, agent, id) && IdInv(w, id)
    requires EntryInv(w, agent, id, w.hosts[agent].memory[id])
    requires w.hosts[agent].memory[id].claim.Some? && id !in w.hosts[agent].pruned
    requires w.hosts[agent].memory[id].effectStartedAt.None?
    ensures Count(w.invocations, id) == 0
  {
    assert w.hosts[agent].memory in Images(w.hosts[agent]);
  }

  lemma BeginKeeps(w: World, agent: Uuid, id: Uuid, at: int, io: Io)
    requires Inv(w) && Running(w, agent, id) && w.hosts[agent].runs[id].Deciding?
    requires var (e, record) := (w.hosts[agent].memory[id], w.hosts[agent].runs[id].record);
             e.result.None? && e.effectStartedAt.None? && record.state == Executing
    ensures Inv(WithHost(w, agent, EffectBegun(w.hosts[agent], id, at, io)))
  {
    hide Inv, HostInv, IdInv;
    Current(w, agent, id);
    var e := w.hosts[agent].memory[id];
    NotYetInvoked(w, agent, id);
    BeginEffectGrows(e, at);
    WriteKeeps(w, agent, id, Some(BeginEffect(e, at).value.0), io, Some(Begun), None);
  }

  lemma PersistTargetKeeps(w: World, agent: Uuid, id: Uuid, target: StopTarget, io: Io)
    requires Inv(w) && Running(w, agent, id) && w.hosts[agent].runs[id].Invoked?
    ensures Inv(WithHost(w, agent, Write(w.hosts[agent], id, PersistStopTarget(w.hosts[agent].memory[id], target), io,
                                         Some(Targeted(target)), Some(Broken))))
  {
    hide Inv, HostInv, IdInv, ValidTarget;
    Current(w, agent, id);
    var e := w.hosts[agent].memory[id];
    if PersistStopTarget(e, target).Some? { PersistStopTargetGrows(e, target); }
    WriteKeeps(w, agent, id, PersistStopTarget(e, target), io, Some(Targeted(target)), Some(Broken));
  }

  lemma TakeReceiptKeeps(w: World, agent: Uuid, id: Uuid, at: int, io: Io)
    requires Inv(w) && Running(w, agent, id) && w.hosts[agent].runs[id].Publishing?
    requires (w.hosts[agent].runs[id].request, Received) in w.answers
    ensures Inv(WithHost(w, agent,
                         Write(w.hosts[agent], id, Acknowledge(w.hosts[agent].memory[id], at), io, None, None)))
  {
    hide Inv;
    Current(w, agent, id);
    Answered(w, w.hosts[agent].runs[id].request, Received);
    var e := w.hosts[agent].memory[id];
    AcknowledgeGrows(e, at);
    WriteKeeps(w, agent, id, Acknowledge(e, at), io, None, None);
  }

  // ----- steps that count an effect -----

  /** The lifecycle or its driver is called: the run moves and a counter grows. */
  lemma EffectKeeps(w: World, v: World, agent: Uuid, id: Uuid, run: Run)
    requires Inv(w) && Running(w, agent, id)
    requires v == WithHost(w, agent, SetRun(w.hosts[agent], id, Some(run)))
                    .(invocations := v.invocations, spawns := v.spawns, signals := v.signals)
    requires forall k: Uuid :: k != id ==> Undisturbed(w, v, k)
    requires OwnedBy(w, agent, id) && Synced(w.hosts[agent], id) && w.hosts[agent].memory[id].effectStartedAt.Some?
    requires Signals(v, id) != [] ==> w.hosts[agent].memory[id].stopTarget == Some(Signals(v, id)[0])
    requires RunInv(v, agent, id, run) && IdInv(v, id)
    ensures Inv(v)
  {
    hide Inv, IdInv, RequestInv, Framed, RunInv, EntryInv;
    var h, g := w.hosts[agent], v.hosts[agent];
    RunFrames(h, id, Some(run));
    GrownKeeps(h, g, id);
    assert Touches(w, v, agent, id);
    Inside(w, agent, id);
    assert Images(g) == Images(h);
    assert HostInv(v, agent, id) by {
      EntriesSame(w, v, agent, id);
      assert Marked(g, id);
      if OwnedBy(v, agent, id) && Terminal(v.history[id].state) { GrownAgrees(w, v, agent, id); }
    }
    TouchKeeps(w, v, agent, id);
  }

  lemma EntriesSame(w: World, v: World, agent: Uuid, id: Uuid)
    requires agent in w.hosts && agent in v.hosts && v.history == w.history
    requires Images(v.hosts[agent]) == Images(w.hosts[agent])
    requires v.hosts[agent].environmentId == w.hosts[agent].environmentId
    requires forall image: Image :: image in Images(w.hosts[agent]) && id in image ==> EntryInv(w, agent, id, image[id])
    ensures forall image: Image :: image in Images(v.hosts[agent]) && id in image ==> EntryInv(v, agent, id, image[id])
  {
  }

  lemma InvokeKeeps(w: World, v: World, agent: Uuid, id: Uuid)
    requires Inv(w) && Running(w, agent, id) && w.hosts[agent].runs[id].Begun?
    requires v == WithHost(w, agent, SetRun(w.hosts[agent], id, Some(Invoked)))
                    .(invocations := w.invocations[id := Count(w.invocations, id) + 1])
    ensures Inv(v)
  {
    hide Inv, HostInv;
    Current(w, agent, id);
    EffectKeeps(w, v, agent, id, Invoked);
  }

  lemma SpawnKeeps(w: World, v: World, agent: Uuid, id: Uuid)
    requires Inv(w) && Running(w, agent, id) && w.hosts[agent].runs[id].Invoked?
    requires v == WithHost(w, agent, SetRun(w.hosts[agent], id, Some(Driven)))
                    .(spawns := w.spawns[id := Count(w.spawns, id) + 1])
    ensures Inv(v)
  {
    hide Inv, HostInv;
    Current(w, agent, id);
    EffectKeeps(w, v, agent, id, Driven);
  }

  lemma SignalKeeps(w: World, v: World, agent: Uuid, id: Uuid)
    requires Inv(w) && Running(w, agent, id) && w.hosts[agent].runs[id].Targeted?
    requires v == WithHost(w, agent, SetRun(w.hosts[agent], id, Some(Driven)))
                    .(signals := w.signals[id := Signals(w, id) + [w.hosts[agent].runs[id].target]])
    ensures Inv(v)
  {
    hide Inv, HostInv;
    Current(w, agent, id);
    EffectKeeps(w, v, agent, id, Driven);
  }

  // ----- steps on the journal as a whole -----

  lemma ReceiveKeeps(w: World, agent: Uuid, command: Command, path: string, io: Io)
    requires Inv(w) && agent in w.hosts && command in w.deliveries
             && command.environmentId == w.hosts[agent].environmentId
    requires command.commandId !in w.hosts[agent].memory && path != "" && path[0] == '/'
    ensures Inv(WithHost(w, agent, Store(w.hosts[agent],
                                         w.hosts[agent].memory[command.commandId := Receipt(command, agent, path)],
                                         io)))
  {
    hide Inv, IdInv, Framed, EntryInv, RunInv, Touches;
    var id := command.commandId;
    var h := w.hosts[agent];
    var e := Receipt(command, agent, path);
    var g := Store(h, h.memory[id := e], io);
    var v := WithHost(w, agent, g);
    Inside(w, agent, id);
    Delivered(w, command);
    assert ValidEntry(e) by { DeliveredIsValid(w, command, agent, path); }
    assert id !in h.runs by { IdleWithoutEntry(w, agent, id); }
    assert g == SetRun(g, id, None);
    StoreFrames(h, id, e, io, None);
    NewReceiptHolds(w, v, agent, id, e);
    assert Touches(w, v, agent, id) by { ReceiveTouches(w, v, agent, id); }
    IdElsewhere(w, v, agent, id);
    TouchKeeps(w, v, agent, id);
  }

  lemma DeliveredIsValid(w: World, command: Command, agent: Uuid, path: string)
    requires command.commandId in w.history && w.history[command.commandId].command == command
    requires IdInv(w, command.commandId) && path != "" && path[0] == '/'
    ensures ValidEntry(Receipt(command, agent, path))
  {
  }

  lemma IdleWithoutEntry(w: World, agent: Uuid, id: Uuid)
    requires agent in w.hosts && HostInv(w, agent, id) && id !in w.hosts[agent].memory
    ensures id !in w.hosts[agent].runs
  {
  }

  lemma ReceiveTouches(w: World, v: World, agent: Uuid, id: Uuid)
    requires agent in w.hosts && id !in w.hosts[agent].memory && agent in v.hosts
    requires v == w.(hosts := w.hosts[agent := v.hosts[agent]])
    requires v.hosts[agent].environmentId == w.hosts[agent].environmentId
             && v.hosts[agent].pruned == w.hosts[agent].pruned
    requires forall k: Uuid :: k != id ==> Framed(w.hosts[agent], v.hosts[agent], k)
    ensures Touches(w, v, agent, id)
  {
    AbsentMeansPruned(w.hosts[agent], v.hosts[agent], id);
  }

  lemma Delivered(w: World, c: Command)
    requires Inv(w) && c in w.deliveries
    ensures c.commandId in w.history && w.history[c.commandId].command == c
  {
  }

  /** Without an entry in memory, whatever must be everywhere was pruned. */
  lemma AbsentMeansPruned(h: Host, g: Host, id: Uuid)
    requires id !in h.memory && g.pruned == h.pruned
    ensures Marked(h, id) ==> Marked(g, id)
    ensures forall t: StopTarget :: Targets(h, id, t) ==> Targets(g, id, t)
    ensures forall result: CommandResult :: Carries(h, id, result) ==> Carries(g, id, result)
  {
    assert h.memory in Images(h);
  }

  lemma NewReceiptHolds(w: World, v: World, agent: Uuid, id: Uuid, e: Entry)
    requires agent in w.hosts && agent in v.hosts && HostInv(w, agent, id) && IdInv(w, id)
             && id !in w.hosts[agent].memory
    requires v == w.(hosts := v.hosts)
    requires v.hosts[agent].environmentId == w.hosts[agent].environmentId
             && v.hosts[agent].pruned == w.hosts[agent].pruned
    requires forall image: Image :: image in Images(v.hosts[agent]) ==>
               image in Images(w.hosts[agent]) || (id in image && image[id] == e)
    requires e == Receipt(e.command, agent, e.canonicalPath) && ValidEntry(e)
    requires id in w.history && w.history[id].command == e.command
    requires e.command.environmentId == w.hosts[agent].environmentId
    requires id !in v.hosts[agent].runs
    ensures HostInv(v, agent, id)
  {
    AbsentMeansPruned(w.hosts[agent], v.hosts[agent], id);
    assert w.hosts[agent].memory in Images(w.hosts[agent]);
  }

  lemma EnrollKeeps(w: World, agent: Uuid, environmentId: Uuid)
    requires Inv(w) && Enabled(w, Enroll(agent, environmentId))
    ensures Inv(Next(w, Enroll(agent, environmentId)))
  {
    hide HostInv, RequestInv, AnswerInv, IdInv;
    var v := Next(w, Enroll(agent, environmentId));
    forall id ensures IdInv(v, id) { EnrolledId(w, v, agent, id); }
    forall other, id | other in v.hosts ensures HostInv(v, other, id) {
      assert IdInv(w, id);
      if other == agent { NewHostHolds(w, v, agent, id); } else { EnrolledElsewhere(w, v, agent, other, id); }
    }
    forall request | request in v.requests ensures RequestInv(v, request) { EnrolledRequest(w, v, agent, request); }
    forall request, answer | (request, answer) in v.answers ensures AnswerInv(v, request, answer) {
      EnrolledAnswer(w, v, agent, request, answer);
    }
  }

  lemma EnrolledId(w: World, v: World, agent: Uuid, id: Uuid)
    requires IdInv(w, id) && agent !in w.hosts && agent in v.hosts && v == WithHost(w, agent, v.hosts[agent])
    ensures IdInv(v, id)
  {
  }

  lemma NewHostHolds(w: World, v: World, agent: Uuid, id: Uuid)
    requires IdInv(w, id) && agent !in w.hosts && agent in v.hosts && v == WithHost(w, agent, v.hosts[agent])
    requires v.hosts[agent] == Host(v.hosts[agent].environmentId, map[], {map[]}, map[], {})
    ensures HostInv(v, agent, id)
  {
    assert !OwnedBy(v, agent, id);
  }

  lemma EnrolledElsewhere(w: World, v: World, agent: Uuid, other: Uuid, id: Uuid)
    requires agent !in w.hosts && agent in v.hosts && v == WithHost(w, agent, v.hosts[agent])
    requires other in w.hosts && HostInv(w, other, id)
    ensures HostInv(v, other, id)
  {
    hide EntryInv;
    assert v.hosts[other] == w.hosts[other];
    EntriesSame(w, v, other, id);
  }

  lemma EnrolledRequest(w: World, v: World, agent: Uuid, request: Uuid)
    requires agent !in w.hosts && agent in v.hosts && v == WithHost(w, agent, v.hosts[agent])
    requires request in w.requests && RequestInv(w, request)
    ensures RequestInv(v, request)
  {
  }

  lemma EnrolledAnswer(w: World, v: World, agent: Uuid, request: Uuid, answer: Answer)
    requires AnswerInv(w, request, answer) && agent in v.hosts && v == WithHost(w, agent, v.hosts[agent])
    ensures AnswerInv(v, request, answer)
  {
  }
}
