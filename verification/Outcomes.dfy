/** Where the results in journals and ledger come from, in every execution. */
module Outcomes {
  import opened Prelude
  import opened Wire
  import opened Journal
  import opened Evidence
  import opened World
  import opened LedgerProofs
  import opened Invariants
  import opened AtMostOnce
  import HostSteps
  import LedgerSteps
  import Json
  import L = Ledger

  // ----- results in journals -----

  /** Every result some content shows was shown before, or is the one being saved. */
  ghost predicate ResultsFrom(h: Host, g: Host, id: Uuid, saved: Option<CommandResult>) {
    forall image: Image, k: Uuid :: image in Images(g) && k in image && image[k].result.Some? ==>
      (k == id && image[k].result == saved)
      || exists before: Image :: before in Images(h) && k in before && before[k].result == image[k].result
  }

  lemma StoredResults(h: Host, next: Image, io: Io, id: Uuid, saved: Option<CommandResult>)
    requires forall k: Uuid :: k in next && next[k].result.Some? ==>
               (k == id && next[k].result == saved) || (k in h.memory && h.memory[k].result == next[k].result)
    ensures ResultsFrom(h, Store(h, next, io), id, saved)
  {
    assert h.memory in Images(h);
  }

  lemma WrittenResults(
    h: Host, id: Uuid, change: Option<Entry>, io: Io, done: Option<Run>, thrown: Option<Run>,
    saved: Option<CommandResult>)
    requires id in h.memory
    requires change.Some? ==> change.value.result == h.memory[id].result || change.value.result == saved
    ensures ResultsFrom(h, Write(h, id, change, io, done, thrown), id, saved)
  {
    hide ResultsFrom, Store, ValidEntry;
    RunOnly(h, id, thrown);
    RunResults(h, SetRun(h, id, thrown), id, saved);
    if change.Some? {
      var stored := Store(h, h.memory[id := change.value], io);
      var run := if io == Durable then done else thrown;
      StoredResults(h, h.memory[id := change.value], io, id, saved);
      RunOnly(stored, id, run);
      SameImages(h, stored, SetRun(stored, id, run), id, saved);
    }
  }

  lemma SameImages(h: Host, g: Host, f: Host, id: Uuid, saved: Option<CommandResult>)
    requires ResultsFrom(h, g, id, saved) && f.memory == g.memory && f.disk == g.disk
    ensures ResultsFrom(h, f, id, saved)
  {
    assert Images(f) == Images(g);
  }

  lemma RunResults(h: Host, g: Host, id: Uuid, saved: Option<CommandResult>)
    requires g.memory == h.memory && g.disk == h.disk
    ensures ResultsFrom(h, g, id, saved)
  {
  }

  function SavedBy(s: Step): Option<CommandResult> { if Saves(s) then Some(s.result) else None }

  /** The command a step of a host is about. */
  function About(s: Step): (Uuid, Uuid)
    requires HostStep(s)
  {
    if s.Receive? then (s.agent, s.command.commandId)
    else if s.PruneJournal? || s.Crash? then (s.agent, 0)
    else (s.agent, s.id)
  }

  predicate HostStep(s: Step) { !LedgerStep(s) && !s.Poll? && !s.Enroll? }

  predicate WriteStep(s: Step) {
    s.TakeClaim? || s.TakeExpiry? || s.RetireSettled? || Saves(s) || s.Begin? || s.PersistTarget? || s.TakeReceipt?
  }

  lemma SavingStepResults(w: World, s: Step)
    requires Enabled(w, s) && Saves(s)
    ensures ResultsFrom(w.hosts[s.agent], Next(w, s).hosts[s.agent], s.id, SavedBy(s))
  {
    hide ResultsFrom, Write, SetRun, Store, Rests, RestsOnTarget, ProperResult, MustRetire, Inspectable;
    var h := w.hosts[s.agent];
    WrittenResults(h, s.id, SaveResult(h.memory[s.id], s.result), s.io, Some(Saved), None, SavedBy(s));
  }

  lemma ClaimStepResults(w: World, s: Step)
    requires Enabled(w, s) && (s.TakeClaim? || s.TakeExpiry?)
    ensures ResultsFrom(w.hosts[s.agent], Next(w, s).hosts[s.agent], s.id, None)
  {
    hide ResultsFrom, Write, SetRun, Store, Rests, RestsOnTarget, ProperResult, MustRetire, Inspectable;
    var (h, id) := (w.hosts[s.agent], s.id);
    RunResults(h, SetRun(h, id, None), id, None) by { RunOnly(h, id, None); }
    match s
    case TakeClaim(_, _, record, io) =>
      WrittenResults(h, id, RecordClaim(h.memory[id], record), io, Some(Deciding(record)), None, None);
    case TakeExpiry(_, _, at, io) => WrittenResults(h, id, Some(Retire(h.memory[id], at)), io, None, None, None);
  }

  lemma RunOnly(h: Host, id: Uuid, run: Option<Run>)
    ensures SetRun(h, id, run).memory == h.memory && SetRun(h, id, run).disk == h.disk
  {
  }

  lemma EffectStepResults(w: World, s: Step)
    requires Enabled(w, s) && (s.Begin? || s.PersistTarget?)
    ensures ResultsFrom(w.hosts[s.agent], Next(w, s).hosts[s.agent], s.id, None)
  {
    hide ResultsFrom, Write, SetRun, Store, Rests, RestsOnTarget, ProperResult, MustRetire, Inspectable;
    var (h, id) := (w.hosts[s.agent], s.id);
    RunResults(h, SetRun(h, id, None), id, None) by { RunOnly(h, id, None); }
    match s
    case Begin(_, _, at, io) =>
      var change := BeginEffect(h.memory[id], at);
      if change.Some? { WrittenResults(h, id, Some(change.value.0), io, Some(Begun), None, None); }
    case PersistTarget(_, _, target, io) =>
      WrittenResults(h, id, PersistStopTarget(h.memory[id], target), io, Some(Targeted(target)), Some(Broken), None);
  }

  lemma ClosingStepResults(w: World, s: Step)
    requires Enabled(w, s) && (s.RetireSettled? || s.TakeReceipt?)
    ensures ResultsFrom(w.hosts[s.agent], Next(w, s).hosts[s.agent], s.id, None)
  {
    hide ResultsFrom, Write, SetRun, Store, Rests, RestsOnTarget, ProperResult, MustRetire, Inspectable;
    var (h, id) := (w.hosts[s.agent], s.id);
    match s
    case RetireSettled(_, _, at, io) => WrittenResults(h, id, Some(Retire(h.memory[id], at)), io, None, None, None);
    case TakeReceipt(_, _, at, io) => WrittenResults(h, id, Acknowledge(h.memory[id], at), io, None, None, None);
  }

  lemma OtherStepResults(w: World, s: Step)
    requires Enabled(w, s) && HostStep(s) && !WriteStep(s)
    ensures var (agent, id) := About(s); ResultsFrom(w.hosts[agent], Next(w, s).hosts[agent], id, None)
  {
    hide ResultsFrom, Store, SetRun, Rests, RestsOnTarget, ProperResult, MustRetire, Inspectable;
    var (agent, id) := About(s);
    var h := w.hosts[agent];
    if s.Receive? {
      StoredResults(h, h.memory[id := Receipt(s.command, agent, s.path)], s.io, id, None);
    } else if s.PruneJournal? {
      PrunedResults(h, s.cutoff, s.io, id);
    } else if s.Crash? {
      RevealedResults(h, Next(w, s).hosts[agent], id);
    } else {
      RunStepKeeps(w, s);
      RunResults(h, Next(w, s).hosts[agent], id, None);
    }
  }

  lemma RunStepKeeps(w: World, s: Step)
    requires Enabled(w, s) && HostStep(s) && !WriteStep(s) && !s.Receive? && !s.PruneJournal? && !s.Crash?
    ensures var (h, g) := (w.hosts[s.agent], Next(w, s).hosts[s.agent]); g.memory == h.memory && g.disk == h.disk
  {
    hide Rests, RestsOnTarget, ProperResult, MustRetire, Inspectable;
  }

  lemma PrunedResults(h: Host, cutoff: int, io: Io, id: Uuid)
    ensures ResultsFrom(h, JournalPruned(h, cutoff, io), id, None)
  {
    StoredResults(h, Journal.Pruned(h.memory, cutoff), io, id, None);
  }

  lemma RevealedResults(h: Host, g: Host, id: Uuid)
    requires g.memory in h.disk && g.disk == h.disk
    ensures ResultsFrom(h, g, id, None)
  {
    assert forall image: Image :: image in Images(g) ==> image in Images(h);
  }

  /** A host's results change only by a step of that host that saves one. */
  lemma StepResults(w: World, s: Step, agent: Uuid, image: Image, id: Uuid)
    requires Enabled(w, s) && agent in Next(w, s).hosts && image in Images(Next(w, s).hosts[agent])
    requires id in image && image[id].result.Some?
    ensures (Saves(s) && s.agent == agent && s.id == id && s.result == image[id].result.value)
            || (agent in w.hosts
                && exists before: Image ::
                   before in Images(w.hosts[agent]) && id in before && before[id].result == image[id].result)
  {
    hide Enabled, Next, Images;
    if HostStep(s) && About(s).0 == agent {
      if Saves(s) {
        SavingStepResults(w, s);
      } else if s.TakeClaim? || s.TakeExpiry? {
        ClaimStepResults(w, s);
      } else if s.Begin? || s.PersistTarget? {
        EffectStepResults(w, s);
      } else if s.RetireSettled? || s.TakeReceipt? {
        ClosingStepResults(w, s);
      } else {
        OtherStepResults(w, s);
      }
      HostIsThere(w, s);
    } else {
      OtherHostStays(w, s, agent);
      if s.Enroll? && s.agent == agent { NothingYet(w, s, image); }
    }
  }

  // ----- where a step may act -----

  /** One host of the world moved, and perhaps the requests and the counts. */
  ghost predicate MovesOnly(w: World, v: World, agent: Uuid) {
    agent in w.hosts && agent in v.hosts && v.hosts == w.hosts[agent := v.hosts[agent]]
  }

  lemma ClaimOrEffectIsLocal(w: World, s: Step)
    requires Enabled(w, s) && (s.TakeClaim? || s.TakeExpiry? || s.Begin? || s.PersistTarget?)
    ensures MovesOnly(w, Next(w, s), s.agent) && Next(w, s).requests == w.requests
  {
    hide Write, SetRun, ClaimTaken, ExpiryTaken, EffectBegun, PersistStopTarget;
  }

  lemma WriteStepIsLocal(w: World, s: Step)
    requires Enabled(w, s) && WriteStep(s)
    ensures MovesOnly(w, Next(w, s), s.agent) && Next(w, s).requests == w.requests
  {
    if s.TakeClaim? || s.TakeExpiry? || s.Begin? || s.PersistTarget? {
      hide Enabled, Next, MovesOnly;
      ClaimOrEffectIsLocal(w, s);
    } else {
      hide Rests, RestsOnTarget, ProperResult, MustRetire, Inspectable, Write, SaveResult, Acknowledge;
    }
  }

  lemma RunStepIsLocal(w: World, s: Step)
    requires Enabled(w, s) && HostStep(s) && !WriteStep(s) && !s.Receive? && !s.PruneJournal? && !s.Crash?
    ensures MovesOnly(w, Next(w, s), s.agent)
    ensures !s.StartRun? && !s.SendResult? ==> Next(w, s).requests == w.requests
  {
    hide MustRetire, SetRun, Finished, Signals;
  }

  lemma JournalStepIsLocal(w: World, s: Step)
    requires Enabled(w, s) && (s.Receive? || s.PruneJournal? || s.Crash?)
    ensures MovesOnly(w, Next(w, s), s.agent) && Next(w, s).requests == w.requests
  {
    hide Store, JournalPruned;
  }

  lemma HostStepIsLocal(w: World, s: Step)
    requires Enabled(w, s) && HostStep(s)
    ensures MovesOnly(w, Next(w, s), About(s).0)
    ensures !s.StartRun? && !s.SendResult? ==> Next(w, s).requests == w.requests
  {
    hide Enabled, Next, MovesOnly;
    if WriteStep(s) {
      WriteStepIsLocal(w, s);
    } else if s.Receive? || s.PruneJournal? || s.Crash? {
      JournalStepIsLocal(w, s);
    } else {
      RunStepIsLocal(w, s);
    }
  }

  lemma ServedClaimLeavesHosts(
    w: World, request: Uuid, verified: bool, target: Option<L.Target>, seen: int, stamp: int)
    requires request in w.requests && w.requests[request].ClaimMessage?
    ensures var v := ServedClaim(w, request, verified, target, seen, stamp);
            v.hosts == w.hosts && v.requests == w.requests
  {
    hide L.Claim;
  }

  lemma ServedResultsLeaveHosts(w: World, request: Uuid, verified: bool, now: int)
    requires request in w.requests && w.requests[request].ResultMessage?
    ensures var v := ServedTransfer(w, request, verified, now); v.hosts == w.hosts && v.requests == w.requests
    ensures var v := ServedResult(w, request, verified, now); v.hosts == w.hosts && v.requests == w.requests
  {
    hide L.Publish, L.Transfer;
  }

  lemma LedgerLeavesHosts(w: World, s: Step)
    requires Enabled(w, s) && (s.ServeClaim? || s.ServeTransfer? || s.ServeResult?)
    ensures Next(w, s).hosts == w.hosts && Next(w, s).requests == w.requests
  {
    hide ServedClaim, ServedTransfer, ServedResult;
    if s.ServeClaim? {
      ServedClaimLeavesHosts(w, s.request, s.verified, s.project, s.seen, s.stamp);
    } else {
      ServedResultsLeaveHosts(w, s.request, s.verified, s.now);
    }
  }

  lemma ElsewhereLeavesHosts(w: World, s: Step)
    requires Enabled(w, s) && !HostStep(s) && !s.Enroll?
    ensures Next(w, s).hosts == w.hosts && Next(w, s).requests == w.requests
  {
    if s.Operate? || s.Poll? {
      hide L.Next, L.Recover;
    } else {
      hide Enabled, Next;
      LedgerLeavesHosts(w, s);
    }
  }

  lemma EnrollAddsHost(w: World, s: Step)
    requires Enabled(w, s) && s.Enroll?
    ensures s.agent !in w.hosts && Next(w, s).requests == w.requests
    ensures Next(w, s).hosts == w.hosts[s.agent := Host(s.environmentId, map[], {map[]}, map[], {})]
  {
  }

  lemma HostIsThere(w: World, s: Step)
    requires Enabled(w, s) && HostStep(s)
    ensures About(s).0 in w.hosts
  {
    hide Enabled, Next;
    HostStepIsLocal(w, s);
  }

  lemma OtherHostStays(w: World, s: Step, agent: Uuid)
    requires Enabled(w, s) && agent in Next(w, s).hosts && !(HostStep(s) && About(s).0 == agent)
    ensures (agent in w.hosts && Next(w, s).hosts[agent] == w.hosts[agent]) || (s.Enroll? && s.agent == agent)
  {
    hide Enabled, Next;
    if HostStep(s) {
      HostStepIsLocal(w, s);
    } else if s.Enroll? {
      EnrollAddsHost(w, s);
    } else {
      ElsewhereLeavesHosts(w, s);
    }
  }

  lemma NothingYet(w: World, s: Step, image: Image)
    requires Enabled(w, s) && s.Enroll? && image in Images(Next(w, s).hosts[s.agent])
    ensures image == map[]
  {
  }

  /** A step of the execution saved this result for this command of this agent. */
  ghost predicate SavedBefore(steps: seq<Step>, k: nat, agent: Uuid, id: Uuid, result: CommandResult) {
    exists i :: 0 <= i < k && i < |steps| && Saves(steps[i]) && steps[i].agent == agent && steps[i].id == id
      && steps[i].result == result
  }

  lemma SavedStays(steps: seq<Step>, k: nat, agent: Uuid, id: Uuid, result: CommandResult)
    requires SavedBefore(steps, k, agent, id, result)
    ensures SavedBefore(steps, k + 1, agent, id, result)
  {
  }

  /** Every result any content of any journal shows was saved by a step of that host. */
  lemma {:induction false} ResultsWereSaved(
    worlds: seq<World>, steps: seq<Step>, k: nat, agent: Uuid, image: Image, id: Uuid)
    requires Execution(worlds, steps) && k < |worlds| && agent in worlds[k].hosts
             && image in Images(worlds[k].hosts[agent])
    requires id in image && image[id].result.Some?
    ensures SavedBefore(steps, k, agent, id, image[id].result.value)
  {
    hide Enabled, Next, Images, SavedBefore;
    if k > 0 {
      var (w, s) := (worlds[k - 1], steps[k - 1]);
      assert Enabled(w, s) && worlds[k] == Next(w, s);
      StepResults(w, s, agent, image, id);
      if Saves(s) && s.agent == agent && s.id == id && s.result == image[id].result.value {
        JustSaved(steps, k);
      } else {
        var before: Image :| before in Images(w.hosts[agent]) && id in before && before[id].result == image[id].result;
        ResultsWereSaved(worlds, steps, k - 1, agent, before, id);
        SavedStays(steps, k - 1, agent, id, image[id].result.value);
      }
    } else {
      NoHostsYet(worlds, steps);
    }
  }

  lemma NoHostsYet(worlds: seq<World>, steps: seq<Step>)
    requires Execution(worlds, steps)
    ensures worlds[0].hosts == map[]
  {
  }

  lemma JustSaved(steps: seq<Step>, k: nat)
    requires 0 < k <= |steps| && Saves(steps[k - 1])
    ensures SavedBefore(steps, k, steps[k - 1].agent, steps[k - 1].id, steps[k - 1].result)
  {
  }

  // ----- results in flight and in the ledger -----

  lemma SendingStep(w: World, s: Step, request: Uuid)
    requires Enabled(w, s) && (s.StartRun? || s.SendResult?)
    requires request in Next(w, s).requests && Next(w, s).requests[request].ResultMessage?
    ensures (request in w.requests && w.requests[request] == Next(w, s).requests[request])
            || (&& s.SendResult? && s.agent in w.hosts && s.id in w.hosts[s.agent].memory
                && var m := Next(w, s).requests[request];
                m.who.agentId == s.agent && w.hosts[s.agent].memory[s.id].result == Some(m.result))
  {
    hide SetRun, Finished;
  }

  lemma StepRequests(w: World, s: Step, request: Uuid)
    requires Enabled(w, s) && request in Next(w, s).requests && Next(w, s).requests[request].ResultMessage?
    ensures (request in w.requests && w.requests[request] == Next(w, s).requests[request])
            || (&& s.SendResult? && s.agent in w.hosts && s.id in w.hosts[s.agent].memory
                && var m := Next(w, s).requests[request];
                m.who.agentId == s.agent && w.hosts[s.agent].memory[s.id].result == Some(m.result))
  {
    hide Enabled, Next;
    if s.StartRun? || s.SendResult? {
      SendingStep(w, s, request);
    } else if HostStep(s) {
      HostStepIsLocal(w, s);
    } else if s.Enroll? {
      EnrollAddsHost(w, s);
    } else {
      ElsewhereLeavesHosts(w, s);
    }
  }

  lemma MemoryIsShown(h: Host)
    ensures h.memory in Images(h)
  {
  }

  /** Every result ever sent was saved by its sender. */
  lemma {:induction false} RequestsWereSaved(worlds: seq<World>, steps: seq<Step>, k: nat, request: Uuid)
    requires Execution(worlds, steps) && k < |worlds| && request in worlds[k].requests
             && worlds[k].requests[request].ResultMessage?
    ensures var m := worlds[k].requests[request]; SavedBefore(steps, k, m.who.agentId, m.result.commandId, m.result)
  {
    if k > 0 {
      hide Enabled, Next, Images, SavedBefore, Inv, HostInv, IdInv;
      var (w, s) := (worlds[k - 1], steps[k - 1]);
      assert Enabled(w, s) && worlds[k] == Next(w, s);
      StepRequests(w, s, request);
      var m := worlds[k].requests[request];
      if request in w.requests && w.requests[request] == m {
        RequestsWereSaved(worlds, steps, k - 1, request);
        SavedStays(steps, k - 1, m.who.agentId, m.result.commandId, m.result);
      } else {
        MemoryIsShown(w.hosts[s.agent]);
        ResultsWereSaved(worlds, steps, k - 1, s.agent, w.hosts[s.agent].memory, s.id);
        ExecutionKeepsInv(worlds, steps, k - 1);
        ResultNamesCommand(w, s.agent, s.id);
        SavedStays(steps, k - 1, s.agent, s.id, m.result);
      }
    }
  }

  lemma ResultNamesCommand(w: World, agent: Uuid, id: Uuid)
    requires Inv(w) && agent in w.hosts && id in w.hosts[agent].memory && w.hosts[agent].memory[id].result.Some?
    ensures w.hosts[agent].memory[id].result.value.commandId == id
  {
    hide Inv;
    HostSteps.Inside(w, agent, id);
    MemoryIsShown(w.hosts[agent]);
    assert EntryInv(w, agent, id, w.hosts[agent].memory[id]);
  }

  /** No record became terminal. */
  ghost predicate NoNewOutcome(l: L.Ledger, latest: map<Uuid, Record>) {
    forall id :: id in latest && Terminal(latest[id].state) ==> id in l.rows && Terminal(l.rows[id].state)
  }

  lemma OperationsReportNothing(l: L.Ledger, q: L.Request)
    requires Valid(l) && !q.DoClaim? && !q.DoPublish? && !q.DoTransfer? && (q.DoSubmit? ==> q.id !in l.rows)
    ensures NoNewOutcome(l, if q.DoPrune? then L.Recover(l, q.now).rows else L.Next(l, q).rows)
  {
    hide L.Next, L.Recover;
    if q.DoPrune? {
      RecoveringReportsNothing(l, q.now);
    } else if q.DoSubmit? {
      SubmittingReportsNothing(l, q);
    } else {
      NextShrinks(l, q);
      LedgerSteps.OperatorsAreReportless(l, q);
    }
  }

  lemma RecoveringReportsNothing(l: L.Ledger, now: int)
    ensures NoNewOutcome(l, L.Recover(l, now).rows)
  {
  }

  lemma SubmittingReportsNothing(l: L.Ledger, q: L.Request)
    requires q.DoSubmit? && q.id !in l.rows
    ensures NoNewOutcome(l, L.Next(l, q).rows)
  {
    hide L.Recover, L.TargetRefusal, L.Submit;
    RecoveringReportsNothing(l, q.now);
    SubmitCases(l, q.id, q.projectId, q.key, q.operation, q.peers, q.now);
  }

  lemma ClaimingReportsNothing(
    l: L.Ledger, who: Identity, id: Uuid, verified: bool, target: Option<L.Target>, seen: int, stamp: int)
    ensures NoNewOutcome(l, L.Claim(l, who, id, verified, target, seen, stamp).0.rows)
  {
    hide ValidRecord;
  }

  lemma TransferringReportsNothing(l: L.Ledger, who: Identity, id: Uuid, verified: bool, now: int)
    requires Valid(l)
    ensures NoNewOutcome(l, L.Transfer(l, who, id, verified, now).0.rows)
  {
  }

  lemma PublishingReports(l: L.Ledger, who: Identity, result: CommandResult, verified: bool, now: int, id: Uuid)
    requires Valid(l)
    ensures var m := L.Publish(l, who, result, verified, now).0;
            id in m.rows && Terminal(m.rows[id].state) ==>
              (id in l.rows && Terminal(l.rows[id].state)) || (id == result.commandId && Reports(m.rows[id], result))
  {
    hide Json.Print, Json.Normal;
    PublishAnswers(l, who, result, verified, now);
  }

  /** A record becomes terminal only by a served result, and then shows that result. */
  lemma StepOutcomes(w: World, s: Step, id: Uuid)
    requires Inv(w) && Enabled(w, s) && id in Next(w, s).history && Terminal(Next(w, s).history[id].state)
    ensures (id in w.history && Terminal(w.history[id].state))
            || (&& s.ServeResult? && s.request in w.requests && w.requests[s.request].ResultMessage?
                && w.requests[s.request].result.commandId == id
                   && Reports(Next(w, s).history[id], w.requests[s.request].result))
  {
    hide Inv, Reports, Enabled, Next, Operated, ServedClaim, ServedTransfer, ServedResult;
    if LedgerStep(s) {
      LedgerSteps.ValidInv(w);
      IdOf(w, id);
      if s.Operate? {
        IdOf(w, if s.q.DoSubmit? then s.q.id else id);
        OperateOutcomes(w, s.q, id);
      } else if s.ServeClaim? {
        ServedClaimOutcomes(w, s, id);
      } else if s.ServeTransfer? {
        ServedTransferOutcomes(w, s, id);
      } else {
        ServedResultOutcomes(w, s, id);
      }
    } else {
      HostsLeaveHistory(w, s);
    }
  }

  lemma OperateOutcomes(w: World, q: L.Request, id: Uuid)
    requires Valid(w.ledger) && IdInv(w, id) && Enabled(w, Operate(q)) && (q.DoSubmit? ==> IdInv(w, q.id))
    requires id in Next(w, Operate(q)).history && Terminal(Next(w, Operate(q)).history[id].state)
    ensures id in w.history && Terminal(w.history[id].state)
  {
    hide L.Next, L.Recover;
    OperationsReportNothing(w.ledger, q);
  }

  /** Rows a ledger keeps or drops only matter to the history where they became terminal. */
  lemma HistoryOutcomes(w: World, latest: map<Uuid, Record>, id: Uuid)
    requires IdInv(w, id) && NoNewOutcome(w.ledger, latest)
    ensures id in (w.history + latest) && Terminal((w.history + latest)[id].state) ==>
              id in w.history && Terminal(w.history[id].state)
  {
  }

  lemma ServedClaimOutcomes(w: World, s: Step, id: Uuid)
    requires Valid(w.ledger) && IdInv(w, id) && Enabled(w, s) && s.ServeClaim?
    requires id in Next(w, s).history && Terminal(Next(w, s).history[id].state)
    ensures id in w.history && Terminal(w.history[id].state)
  {
    hide IdInv, NoNewOutcome, L.Claim;
    var m := w.requests[s.request];
    ClaimingReportsNothing(w.ledger, m.who, m.id, s.verified, s.project, s.seen, s.stamp);
    HistoryOutcomes(w, L.Claim(w.ledger, m.who, m.id, s.verified, s.project, s.seen, s.stamp).0.rows, id);
  }

  lemma ServedTransferOutcomes(w: World, s: Step, id: Uuid)
    requires Valid(w.ledger) && IdInv(w, id) && Enabled(w, s) && s.ServeTransfer?
    requires id in Next(w, s).history && Terminal(Next(w, s).history[id].state)
    ensures id in w.history && Terminal(w.history[id].state)
  {
    hide IdInv, NoNewOutcome, L.Transfer;
    var m := w.requests[s.request];
    TransferringReportsNothing(w.ledger, m.who, m.result.commandId, s.verified, s.now);
    HistoryOutcomes(w, L.Transfer(w.ledger, m.who, m.result.commandId, s.verified, s.now).0.rows, id);
  }

  lemma ServedResultOutcomes(w: World, s: Step, id: Uuid)
    requires Valid(w.ledger) && IdInv(w, id) && Enabled(w, s) && s.ServeResult?
    requires id in Next(w, s).history && Terminal(Next(w, s).history[id].state)
    ensures (id in w.history && Terminal(w.history[id].state))
            || (&& s.request in w.requests && w.requests[s.request].ResultMessage?
                && w.requests[s.request].result.commandId == id
                   && Reports(Next(w, s).history[id], w.requests[s.request].result))
  {
    hide IdInv, Valid, Reports, Terminal, Enabled, Next;
    var m := ResultServed(w, s);
    PublishingReports(w.ledger, m.who, m.result, s.verified, s.now, id);
    RowsAreHistory(w, id);
  }

  lemma ResultServed(w: World, s: Step) returns (m: Message)
    requires Enabled(w, s) && s.ServeResult?
    ensures s.request in w.requests && m == w.requests[s.request] && m.ResultMessage?
    ensures Next(w, s).history == w.history + L.Publish(w.ledger, m.who, m.result, s.verified, s.now).0.rows
  {
    hide L.Publish;
    m := w.requests[s.request];
  }

  lemma RowsAreHistory(w: World, id: Uuid)
    requires IdInv(w, id)
    ensures id in w.ledger.rows ==> id in w.history && w.history[id] == w.ledger.rows[id]
  {
  }

  // ----- main results -----

  /** Every outcome the ledger ever shows was saved by a step of some host, with this state and evidence. */
  lemma {:induction false} OutcomesWereSaved(worlds: seq<World>, steps: seq<Step>, k: nat, id: Uuid) returns (i: nat)
    requires Execution(worlds, steps) && k < |worlds| && id in worlds[k].history
             && Terminal(worlds[k].history[id].state)
    ensures i < k && Saves(steps[i]) && steps[i].id == id && Reports(worlds[k].history[id], steps[i].result)
  {
    hide Enabled, Next, Inv, Reports, Evolves;
    ExecutionKeepsInv(worlds, steps, k);
    if k > 0 {
      var (w, s) := (worlds[k - 1], steps[k - 1]);
      assert Enabled(w, s) && worlds[k] == Next(w, s);
      ExecutionKeepsInv(worlds, steps, k - 1);
      StepOutcomes(w, s, id);
      if id in w.history && Terminal(w.history[id].state) {
        i := OutcomesWereSaved(worlds, steps, k - 1, id);
        NextEvolves(w, s, id);
        OutcomeStays(w.history[id], worlds[k].history[id], steps[i].result);
      } else {
        RequestsWereSaved(worlds, steps, k - 1, s.request);
        var m := w.requests[s.request];
        i :| 0 <= i < k - 1 && i < |steps| && Saves(steps[i]) && steps[i].agent == m.who.agentId && steps[i].id == id
             && steps[i].result == m.result;
      }
    }
  }

  lemma OutcomeStays(r: Record, s: Record, result: CommandResult)
    requires Evolves(r, s) && Terminal(r.state) && Reports(r, result)
    ensures Reports(s, result)
  {
    hide Json.Print;
  }

  /** The evidence behind a saved success: what was inspected as it was saved, and the target then journaled. */
  ghost predicate RestsOnEvidence(w: World, s: Step) {
    && Saves(s) && s.agent in w.hosts && s.id in w.hosts[s.agent].memory
    && var e := w.hosts[s.agent].memory[s.id];
    && s.basis.Seen?
    && match e.command.operation
       case Start => Ready(s.basis.inspection)
       case Stop => Released(s.basis.inspection) && (e.stopTarget.Some? ==> s.basis.exited == e.stopTarget)
  }

  lemma SavingRests(w: World, s: Step)
    requires Enabled(w, s) && Saves(s) && s.result.state == Succeeded
    ensures RestsOnEvidence(w, s)
  {
    hide ProperResult, MustRetire, Inspectable;
  }

  /** In every execution, whatever the ledger shows as succeeded was saved when an inspection
      showed a started project running and ready, or a stopped one stopped with its locks
      released and the journaled target exited. */
  lemma SuccessRestsOnInspection(worlds: seq<World>, steps: seq<Step>, k: nat, id: Uuid)
    requires Execution(worlds, steps) && k < |worlds| && id in worlds[k].ledger.rows
             && worlds[k].ledger.rows[id].state == Succeeded
    ensures exists i ::
            0 <= i < k && SavedSuccess(worlds, steps, i, id) && Reports(worlds[k].ledger.rows[id], steps[i].result)
  {
    hide Inv, Reports, Enabled, Next, RestsOnEvidence;
    ExecutionKeepsInv(worlds, steps, k);
    IdOf(worlds[k], id);
    var i := OutcomesWereSaved(worlds, steps, k, id);
    assert Enabled(worlds[i], steps[i]);
    SameState(worlds[k].ledger.rows[id], steps[i].result);
    SavingRests(worlds[i], steps[i]);
    assert SavedSuccess(worlds, steps, i, id);
  }

  lemma SameState(r: Record, result: CommandResult)
    requires Reports(r, result)
    ensures r.state == result.state
  {
    hide Json.Print;
  }

  /** This step saved a success of this command, and it rests on an inspection. */
  ghost predicate SavedSuccess(worlds: seq<World>, steps: seq<Step>, i: nat, id: Uuid) {
    i < |steps| && i < |worlds| && Saves(steps[i]) && steps[i].id == id && steps[i].result.state == Succeeded
    && RestsOnEvidence(worlds[i], steps[i])
  }

  /** The same of every content of every journal, on the host that saved it. */
  lemma JournaledSuccessRestsOnInspection(
    worlds: seq<World>, steps: seq<Step>, k: nat, agent: Uuid, image: Image, id: Uuid)
    requires Execution(worlds, steps) && k < |worlds| && agent in worlds[k].hosts
             && image in Images(worlds[k].hosts[agent])
    requires id in image && image[id].result.Some? && image[id].result.value.state == Succeeded
    ensures exists i :: 0 <= i < k && SavedSuccess(worlds, steps, i, id) && steps[i].agent == agent
                        && steps[i].result == image[id].result.value
  {
    hide Inv, Enabled, Next, RestsOnEvidence;
    ResultsWereSaved(worlds, steps, k, agent, image, id);
    var i :| 0 <= i < k && i < |steps| && Saves(steps[i]) && steps[i].agent == agent && steps[i].id == id
             && steps[i].result == image[id].result.value;
    assert Enabled(worlds[i], steps[i]);
    SavingRests(worlds[i], steps[i]);
    assert SavedSuccess(worlds, steps, i, id);
  }
}
