/** The promises of the command protocol, in every execution. */
module AtMostOnce {
  import opened Prelude
  import opened Wire
  import opened Journal
  import opened Evidence
  import opened World
  import opened LedgerProofs
  import opened Invariants
  import HostSteps
  import LedgerSteps
  import Json

  // ----- pruning and crashing -----

  /** The journal as a whole was replaced by one of its contents, or lost finished entries. */
  ghost predicate Replaced(w: World, v: World, agent: Uuid) {
    && agent in w.hosts && agent in v.hosts && v == w.(hosts := w.hosts[agent := v.hosts[agent]])
    && v.hosts[agent].environmentId == w.hosts[agent].environmentId
    && w.hosts[agent].pruned <= v.hosts[agent].pruned
    && (forall image: Image, id: Uuid :: image in Images(v.hosts[agent]) && id !in v.hosts[agent].pruned ==>
          exists before: Image :: before in Images(w.hosts[agent]) && Look(before, id) == Look(image, id))
    && (forall image: Image, id: Uuid :: image in Images(v.hosts[agent]) && id in image ==>
          exists before: Image :: before in Images(w.hosts[agent]) && Look(before, id) == Look(image, id))
    && (forall id: Uuid :: id in v.hosts[agent].pruned && id !in w.hosts[agent].pruned ==>
          id in w.history && Settled(w.history[id].state))
    && (forall id: Uuid :: id in v.hosts[agent].runs ==>
          id in w.hosts[agent].runs && Framed(w.hosts[agent], v.hosts[agent], id))
  }

  /** Every content shows of this command what some earlier content showed, unless it was pruned. */
  ghost predicate Subsumed(h: Host, g: Host, id: Uuid) {
    || id in g.pruned
    || (&& id !in h.pruned
        && forall image: Image :: image in Images(g) ==>
             exists before: Image :: before in Images(h) && Look(before, id) == Look(image, id))
  }

  lemma SubsumedKeeps(h: Host, g: Host, id: Uuid)
    requires Subsumed(h, g, id)
    ensures Marked(h, id) ==> Marked(g, id)
    ensures forall t: StopTarget :: Targets(h, id, t) ==> Targets(g, id, t)
    ensures forall result: CommandResult :: Carries(h, id, result) ==> Carries(g, id, result)
  {
  }

  lemma SubsumedAgrees(w: World, v: World, agent: Uuid, id: Uuid)
    requires agent in w.hosts && agent in v.hosts && Subsumed(w.hosts[agent], v.hosts[agent], id)
    requires id in w.history && v.history == w.history && Agrees(w, agent, id)
    ensures Agrees(v, agent, id)
  {
    hide Reports;
  }

  lemma ReplacedEntries(w: World, v: World, agent: Uuid, id: Uuid)
    requires Replaced(w, v, agent) && HostInv(w, agent, id)
    ensures forall image: Image :: image in Images(v.hosts[agent]) && id in image ==> EntryInv(v, agent, id, image[id])
  {
    hide Marked, Targets, Agrees, RunInv;
    forall image: Image | image in Images(v.hosts[agent]) && id in image ensures EntryInv(v, agent, id, image[id]) {
      var before: Image :| before in Images(w.hosts[agent]) && Look(before, id) == Look(image, id);
      assert EntryInv(w, agent, id, before[id]);
    }
  }

  lemma FramedRun(w: World, v: World, agent: Uuid, id: Uuid)
    requires agent in w.hosts && agent in v.hosts && v == w.(hosts := w.hosts[agent := v.hosts[agent]])
    requires Framed(w.hosts[agent], v.hosts[agent], id)
    requires id in w.hosts[agent].runs && RunInv(w, agent, id, w.hosts[agent].runs[id])
    ensures RunInv(v, agent, id, v.hosts[agent].runs[id])
  {
    FramedKeeps(w.hosts[agent], v.hosts[agent], id);
  }

  lemma ReplacedRun(w: World, v: World, agent: Uuid, id: Uuid)
    requires Replaced(w, v, agent) && HostInv(w, agent, id) && id in v.hosts[agent].runs
    ensures RunInv(v, agent, id, v.hosts[agent].runs[id])
  {
    hide Marked, Targets, Agrees, EntryInv, Framed, RunInv;
    FramedRun(w, v, agent, id);
  }

  lemma ReplacedHost(w: World, v: World, agent: Uuid, id: Uuid)
    requires Replaced(w, v, agent) && HostInv(w, agent, id)
    ensures HostInv(v, agent, id)
  {
    hide Marked, Targets, Agrees, RunInv, EntryInv;
    ReplacedEntries(w, v, agent, id);
    if id in v.hosts[agent].runs { ReplacedRun(w, v, agent, id); }
    SubsumedKeeps(w.hosts[agent], v.hosts[agent], id);
    if OwnedBy(w, agent, id) && Terminal(w.history[id].state) { SubsumedAgrees(w, v, agent, id); }
  }

  lemma ReplacedRequest(w: World, v: World, agent: Uuid, request: Uuid)
    requires Replaced(w, v, agent) && request in w.requests && RequestInv(w, request)
    ensures RequestInv(v, request)
  {
    hide Carries;
    var m := w.requests[request];
    if m.ResultMessage? && m.who.agentId == agent {
      SubsumedKeeps(w.hosts[agent], v.hosts[agent], m.result.commandId);
    }
  }

  lemma ReplacedKeeps(w: World, v: World, agent: Uuid)
    requires Inv(w) && Replaced(w, v, agent)
    ensures Inv(v)
  {
    hide HostInv, IdInv, RequestInv, AnswerInv, Replaced;
    assert agent in w.hosts && agent in v.hosts && v == w.(hosts := w.hosts[agent := v.hosts[agent]])
           && v.hosts[agent].environmentId == w.hosts[agent].environmentId by { ReplacedParts(w, v, agent); }
    forall id ensures IdInv(v, id) { HostSteps.IdElsewhere(w, v, agent, id) by { assert IdInv(w, id); } }
    forall other, id | other in v.hosts ensures HostInv(v, other, id) {
      assert HostInv(w, other, id) && IdInv(w, id);
      if other == agent { ReplacedHost(w, v, agent, id); } else { OtherHost(w, v, agent, other, id); }
    }
    forall request | request in v.requests ensures RequestInv(v, request) { ReplacedRequest(w, v, agent, request); }
    forall request, answer | (request, answer) in v.answers ensures AnswerInv(v, request, answer) {
      HostSteps.EnrolledAnswer(w, v, agent, request, answer);
    }
  }

  lemma ReplacedParts(w: World, v: World, agent: Uuid)
    requires Replaced(w, v, agent)
    ensures agent in w.hosts && agent in v.hosts && v == w.(hosts := w.hosts[agent := v.hosts[agent]])
    ensures v.hosts[agent].environmentId == w.hosts[agent].environmentId
  {
  }

  lemma OtherHost(w: World, v: World, agent: Uuid, other: Uuid, id: Uuid)
    requires agent in v.hosts && v == w.(hosts := w.hosts[agent := v.hosts[agent]])
    requires other in w.hosts && other != agent && HostInv(w, other, id)
    ensures HostInv(v, other, id)
  {
    hide EntryInv;
    assert v.hosts[other] == w.hosts[other];
    HostSteps.EntriesSame(w, v, other, id);
  }

  lemma CrashReplaces(w: World, agent: Uuid, image: Image)
    requires agent in w.hosts && image in w.hosts[agent].disk
    ensures Replaced(w, WithHost(w, agent, w.hosts[agent].(memory := image, runs := map[])), agent)
  {
    var h := w.hosts[agent];
    var g := h.(memory := image, runs := map[]);
    assert forall i: Image :: i in Images(g) ==> i in Images(h);
  }

  /** Only finished entries are pruned, and the ledger has settled every one of them. */
  lemma PrunableIsSettled(w: World, agent: Uuid, id: Uuid, cutoff: int)
    requires Inv(w) && agent in w.hosts && id in w.hosts[agent].memory && Prunable(w.hosts[agent].memory[id], cutoff)
    ensures Finished(w.hosts[agent].memory[id]) && id !in w.hosts[agent].runs
    ensures id in w.history && Settled(w.history[id].state)
  {
    var h := w.hosts[agent];
    assert HostInv(w, agent, id);
    assert h.memory in Images(h);
    assert EntryInv(w, agent, id, h.memory[id]);
  }

  lemma PrunedImage(h: Host, cutoff: int, io: Io, image: Image, id: Uuid)
    requires var g := JournalPruned(h, cutoff, io); image in Images(g) && (id in image || id !in g.pruned)
    ensures exists before: Image :: before in Images(h) && Look(before, id) == Look(image, id)
  {
    if image in Images(h) {
    } else {
      assert h.memory in Images(h) && Look(h.memory, id) == Look(image, id);
    }
  }

  lemma PruneReplaces(w: World, agent: Uuid, cutoff: int, io: Io)
    requires Inv(w) && agent in w.hosts
    ensures Replaced(w, WithHost(w, agent, JournalPruned(w.hosts[agent], cutoff, io)), agent)
  {
    hide Inv, HostInv;
    var h := w.hosts[agent];
    var g := JournalPruned(h, cutoff, io);
    var v := WithHost(w, agent, g);
    forall image: Image, id: Uuid | image in Images(g) && (id in image || id !in g.pruned)
      ensures exists before: Image :: before in Images(h) && Look(before, id) == Look(image, id)
    {
      PrunedImage(h, cutoff, io, image, id);
    }
    forall id: Uuid | id in h.memory && Prunable(h.memory[id], cutoff)
      ensures id !in h.runs && id in w.history && Settled(w.history[id].state)
    {
      PrunableIsSettled(w, agent, id, cutoff);
    }
    forall id: Uuid | id in g.runs ensures id in h.runs && Framed(h, g, id) {
      RunningIsFramed(w, agent, id, cutoff, io);
    }
  }

  lemma RunningIsFramed(w: World, agent: Uuid, id: Uuid, cutoff: int, io: Io)
    requires Inv(w) && agent in w.hosts && id in w.hosts[agent].runs
    ensures Framed(w.hosts[agent], JournalPruned(w.hosts[agent], cutoff, io), id)
  {
    hide Inv;
    HostSteps.Inside(w, agent, id);
    if Prunable(w.hosts[agent].memory[id], cutoff) { PrunableIsSettled(w, agent, id, cutoff); }
  }

  // ----- every step -----

  lemma LedgerStepKeeps(w: World, s: Step)
    requires Inv(w) && Enabled(w, s)
    requires s.Operate? || s.Poll? || s.ServeClaim? || s.ServeTransfer? || s.ServeResult?
    ensures Inv(Next(w, s))
  {
    hide Inv;
    match s
    case Operate(q) => LedgerSteps.OperateKeepsInv(w, q);
    case Poll(id) => LedgerSteps.PollKeepsInv(w, id);
    case ServeClaim(request, verified, project, seen, stamp) =>
      LedgerSteps.ServeClaimKeepsInv(w, request, verified, project, seen, stamp);
    case ServeTransfer(request, verified, now) => LedgerSteps.ServeTransferKeepsInv(w, request, verified, now);
    case ServeResult(request, verified, now) => LedgerSteps.ServeResultKeepsInv(w, request, verified, now);
  }

  lemma JournalStepKeeps(w: World, s: Step)
    requires Inv(w) && Enabled(w, s)
    requires s.Enroll? || s.Receive? || s.PruneJournal? || s.Crash?
    ensures Inv(Next(w, s))
  {
    hide Inv, Replaced;
    match s
    case Enroll(agent, environmentId) => HostSteps.EnrollKeeps(w, agent, environmentId);
    case Receive(agent, command, path, io) => HostSteps.ReceiveKeeps(w, agent, command, path, io);
    case PruneJournal(agent, cutoff, io) =>
      PruneReplaces(w, agent, cutoff, io);
      ReplacedKeeps(w, Next(w, s), agent);
    case Crash(agent, image) =>
      CrashReplaces(w, agent, image);
      ReplacedKeeps(w, Next(w, s), agent);
  }

  predicate Deciding(s: Step) {
    || s.StartRun? || s.GiveUp? || s.TakeClaim? || s.TakeExpiry? || s.RetireSettled? || s.Recovered? || s.KeepResult?
    || s.Resolve?
  }

  lemma DecisionKeeps(w: World, s: Step)
    requires Inv(w) && Enabled(w, s) && Deciding(s)
    ensures Inv(Next(w, s))
  {
    hide Inv;
    match s
    case StartRun(agent, id, session, request) => HostSteps.StartRunKeeps(w, agent, id, session, request);
    case GiveUp(agent, id) => HostSteps.DropRunKeeps(w, agent, id);
    case TakeClaim(agent, id, record, io) => HostSteps.TakeClaimKeeps(w, agent, id, record, io);
    case TakeExpiry(agent, id, at, io) => HostSteps.TakeExpiryKeeps(w, agent, id, at, io);
    case RetireSettled(agent, id, at, io) => HostSteps.RetireSettledKeeps(w, agent, id, at, io);
    case Recovered(agent, id, result, _, io) => HostSteps.SavingKeeps(w, agent, id, result, io);
    case KeepResult(agent, id) => HostSteps.KeepResultKeeps(w, agent, id);
    case Resolve(agent, id, result, _, io) => HostSteps.SavingKeeps(w, agent, id, result, io);
  }

  lemma EffectStepKeeps(w: World, s: Step)
    requires Inv(w) && Enabled(w, s)
    requires s.Begin? || s.Invoke? || s.Spawn? || s.PersistTarget? || s.Signal?
    ensures Inv(Next(w, s))
  {
    hide Inv;
    match s
    case Begin(agent, id, at, io) => HostSteps.BeginKeeps(w, agent, id, at, io);
    case Invoke(agent, id) => HostSteps.InvokeKeeps(w, Next(w, s), agent, id);
    case Spawn(agent, id) => HostSteps.SpawnKeeps(w, Next(w, s), agent, id);
    case PersistTarget(agent, id, target, io) => HostSteps.PersistTargetKeeps(w, agent, id, target, io);
    case Signal(agent, id) => HostSteps.SignalKeeps(w, Next(w, s), agent, id);
  }

  lemma FinishKeeps(w: World, agent: Uuid, id: Uuid, result: CommandResult, basis: Basis, io: Io)
    requires Inv(w) && Enabled(w, Finish(agent, id, result, basis, io))
    ensures Inv(WithHost(w, agent,
                         Write(w.hosts[agent], id, SaveResult(w.hosts[agent].memory[id], result), io, Some(Saved),
                               None)))
  {
    hide Inv, EntryInv, HostInv, IdInv;
    HostSteps.Current(w, agent, id);
    HostSteps.SavingKeeps(w, agent, id, result, io);
  }

  lemma ClosingStepKeeps(w: World, s: Step)
    requires Inv(w) && Enabled(w, s)
    requires s.Finish? || s.SendResult? || s.Conclude? || s.TakeReceipt?
    ensures Inv(Next(w, s))
  {
    hide Inv;
    match s
    case Finish(agent, id, result, basis, io) => FinishKeeps(w, agent, id, result, basis, io);
    case SendResult(agent, id, session, request) =>
      HostSteps.SendResultKeeps(w, Next(w, s), agent, id, session, request);
    case Conclude(agent, id) => HostSteps.DropRunKeeps(w, agent, id);
    case TakeReceipt(agent, id, at, io) => HostSteps.TakeReceiptKeeps(w, agent, id, at, io);
  }

  lemma NextKeepsInv(w: World, s: Step)
    requires Inv(w) && Enabled(w, s)
    ensures Inv(Next(w, s))
  {
    hide Inv, Enabled, Next;
    if s.Operate? || s.Poll? || s.ServeClaim? || s.ServeTransfer? || s.ServeResult? {
      LedgerStepKeeps(w, s);
    } else if s.Enroll? || s.Receive? || s.PruneJournal? || s.Crash? {
      JournalStepKeeps(w, s);
    } else if Deciding(s) {
      DecisionKeeps(w, s);
    } else if s.Finish? || s.SendResult? || s.Conclude? || s.TakeReceipt? {
      ClosingStepKeeps(w, s);
    } else {
      EffectStepKeeps(w, s);
    }
  }

  lemma InitialInv()
    ensures Inv(INITIAL)
  {
  }

  lemma {:induction false} ExecutionKeepsInv(worlds: seq<World>, steps: seq<Step>, k: nat)
    requires Execution(worlds, steps) && k < |worlds|
    ensures Inv(worlds[k])
  {
    hide Inv, Enabled, Next;
    if k == 0 {
      InitialInv();
    } else {
      ExecutionKeepsInv(worlds, steps, k - 1);
      assert Enabled(worlds[k - 1], steps[k - 1]) && worlds[k] == Next(worlds[k - 1], steps[k - 1]);
      NextKeepsInv(worlds[k - 1], steps[k - 1]);
    }
  }

  // ----- main results -----

  /** In every execution the lifecycle is invoked at most once for a command over
      all hosts, and so is each call of its driver. */
  lemma InvokedAtMostOnce(worlds: seq<World>, steps: seq<Step>, k: nat, id: Uuid)
    requires Execution(worlds, steps) && k < |worlds|
    ensures Count(worlds[k].invocations, id) <= 1
    ensures Count(worlds[k].spawns, id) <= Count(worlds[k].invocations, id)
    ensures |Signals(worlds[k], id)| <= Count(worlds[k].invocations, id)
  {
    ExecutionKeepsInv(worlds, steps, k);
    assert IdInv(worlds[k], id);
  }

  predicate LedgerStep(s: Step) { s.Operate? || s.ServeClaim? || s.ServeTransfer? || s.ServeResult? }

  lemma HostsLeaveHistory(w: World, s: Step)
    requires Enabled(w, s) && !LedgerStep(s)
    ensures Next(w, s).history == w.history
  {
    hide Write, Store, SetRun, ClaimTaken, ExpiryTaken, EffectBegun, JournalPruned, SaveResult, Acknowledge,
      PersistStopTarget;
    hide ProperResult, MustRetire, Inspectable, Rests, RestsOnTarget, Signals, Finished;
  }

  lemma LedgerIsLater(w: World, s: Step)
    requires Inv(w) && Enabled(w, s) && LedgerStep(s)
    ensures Later(w, Next(w, s))
  {
    hide Inv, Later, Operated, ServedClaim, ServedTransfer, ServedResult;
    match s
    case Operate(q) => LedgerSteps.OperateKeepsInv(w, q);
    case ServeClaim(request, verified, project, seen, stamp) =>
      LedgerSteps.ServeClaimKeepsInv(w, request, verified, project, seen, stamp);
    case ServeTransfer(request, verified, now) => LedgerSteps.ServeTransferKeepsInv(w, request, verified, now);
    case ServeResult(request, verified, now) => LedgerSteps.ServeResultKeepsInv(w, request, verified, now);
  }

  /** Records are never forgotten and only evolve. */
  lemma NextEvolves(w: World, s: Step, id: Uuid)
    requires Inv(w) && Enabled(w, s) && id in w.history
    ensures id in Next(w, s).history && Evolves(w.history[id], Next(w, s).history[id])
  {
    hide Inv, Enabled, Next, Evolves;
    IdOf(w, id);
    if LedgerStep(s) {
      LedgerIsLater(w, s);
    } else {
      HostsLeaveHistory(w, s);
      LedgerSteps.SelfEvolves(w.history[id]);
    }
  }

  lemma IdOf(w: World, id: Uuid)
    requires Inv(w)
    ensures IdInv(w, id)
  {
  }

  lemma {:induction false} ExecutionEvolves(worlds: seq<World>, steps: seq<Step>, j: nat, k: nat, id: Uuid)
    requires Execution(worlds, steps) && j <= k < |worlds| && id in worlds[j].history
    ensures id in worlds[k].history && Evolves(worlds[j].history[id], worlds[k].history[id])
  {
    hide Inv, Enabled, Next, Evolves;
    if j == k {
      ExecutionKeepsInv(worlds, steps, k);
      IdOf(worlds[k], id);
      LedgerSteps.SelfEvolves(worlds[k].history[id]);
    } else {
      ExecutionEvolves(worlds, steps, j, k - 1, id);
      ExecutionKeepsInv(worlds, steps, k - 1);
      assert Enabled(worlds[k - 1], steps[k - 1]) && worlds[k] == Next(worlds[k - 1], steps[k - 1]);
      NextEvolves(worlds[k - 1], steps[k - 1], id);
      EvolvesTransitive(worlds[j].history[id], worlds[k - 1].history[id], worlds[k].history[id]);
    }
  }

  /** What the ledger shows as accepted or expired was never executed. */
  lemma UnclaimedNeverInvoked(worlds: seq<World>, steps: seq<Step>, k: nat, id: Uuid)
    requires Execution(worlds, steps) && k < |worlds|
    requires id in worlds[k].ledger.rows
    requires worlds[k].ledger.rows[id].state == Accepted || worlds[k].ledger.rows[id].state == Expired
    ensures Count(worlds[k].invocations, id) == 0
  {
    ExecutionKeepsInv(worlds, steps, k);
    assert IdInv(worlds[k], id);
  }

  /** Once the ledger shows an outcome, at that moment and ever after the ledger keeps
      it and every content of the owner's journal holds the same one, unless the
      receipt was pruned. */
  lemma OutcomeIsAgreedForever(worlds: seq<World>, steps: seq<Step>, j: nat, k: nat, id: Uuid)
    requires Execution(worlds, steps) && j <= k < |worlds|
    requires id in worlds[j].ledger.rows && Terminal(worlds[j].ledger.rows[id].state)
    ensures var (w, r) := (worlds[k], worlds[j].ledger.rows[id]);
            && r.owner.Some? && r.owner.value.agentId in w.hosts && r.evidence.Some?
            && (id in w.ledger.rows ==> w.ledger.rows[id].state == r.state && w.ledger.rows[id].evidence == r.evidence
                                        && w.ledger.rows[id].diagnostic == r.diagnostic)
            && var h := w.hosts[r.owner.value.agentId];
            && (id in h.pruned || forall image: Image :: image in Images(h) ==>
                  && id in image && image[id].result.Some?
                  && image[id].result.value.state == r.state
                  && Json.Print(image[id].result.value.evidence) == Json.Print(r.evidence.value)
                  && image[id].result.value.diagnostic == r.diagnostic)
  {
    hide Json.Print, Inv, Enabled, Next;
    var w := worlds[k];
    ExecutionKeepsInv(worlds, steps, j);
    ExecutionKeepsInv(worlds, steps, k);
    IdOf(worlds[j], id);
    ExecutionEvolves(worlds, steps, j, k, id);
    IdOf(w, id);
    var agent := w.history[id].owner.value.agentId;
    HostSteps.Inside(w, agent, id);
    assert OwnedBy(w, agent, id) && Agrees(w, agent, id);
  }

  /** A stop signal goes only to the target that every content of the journal
      already names, and a command never names a second one. */
  lemma SignalsUseTheDurableTarget(worlds: seq<World>, steps: seq<Step>, k: nat)
    requires Execution(worlds, steps) && k < |steps| && steps[k].Signal?
    ensures var (w, v, agent, id) := (worlds[k], worlds[k + 1], steps[k].agent, steps[k].id);
            && agent in w.hosts && id !in w.hosts[agent].pruned && Signals(w, id) == []
            && |Signals(v, id)| == 1
            && forall image: Image :: image in Images(w.hosts[agent]) ==>
                 id in image && image[id].stopTarget == Some(Signals(v, id)[0])
  {
    hide Inv, EntryInv, HostInv, IdInv;
    var (w, v, agent, id) := (worlds[k], worlds[k + 1], steps[k].agent, steps[k].id);
    ExecutionKeepsInv(worlds, steps, k);
    assert Enabled(w, steps[k]) && v == Next(w, steps[k]);
    HostSteps.Current(w, agent, id);
  }

  /** Saving a result never meets a different durable one: the journal's refusal to
      replace a result is never reached. */
  lemma ResultsAreNeverReplaced(worlds: seq<World>, steps: seq<Step>, k: nat)
    requires Execution(worlds, steps) && k < |steps|
    requires steps[k].Finish? || steps[k].Resolve? || steps[k].Recovered?
    ensures SaveResult(worlds[k].hosts[steps[k].agent].memory[steps[k].id], steps[k].result).Some?
  {
    hide Inv, HostInv, IdInv, Next;
    ExecutionKeepsInv(worlds, steps, k);
    assert Enabled(worlds[k], steps[k]);
    HostSteps.Current(worlds[k], steps[k].agent, steps[k].id);
  }

  /** A claim answer to a command that was already pruned never carries execution permission. */
  lemma NoPermissionAfterPruning(worlds: seq<World>, steps: seq<Step>, k: nat)
    requires Execution(worlds, steps) && k < |steps| && steps[k].Begin?
    ensures steps[k].id !in worlds[k].hosts[steps[k].agent].pruned
  {
    hide Inv, HostInv, IdInv, Next;
    ExecutionKeepsInv(worlds, steps, k);
    assert Enabled(worlds[k], steps[k]);
    HostSteps.Current(worlds[k], steps[k].agent, steps[k].id);
  }
}
