/** Journal entries only grow, in every execution, whatever writes fail, hosts crash or receipts are pruned. */
module JournalRuns {
  import opened Prelude
  import opened Wire
  import opened Journal
  import opened Evidence
  import opened World
  import opened Invariants
  import opened AtMostOnce
  import HostSteps
  import Outcomes

  /** Every content shows this entry. */
  ghost predicate Shows(h: Host, id: Uuid, e: Entry) {
    forall image: Image :: image in Images(h) ==> id in image && image[id] == e
  }

  /** The receipt was pruned, or every content shows an entry this one grew into. */
  ghost predicate GrewFrom(h: Host, id: Uuid, e: Entry) {
    id in h.pruned || forall image: Image :: image in Images(h) ==> id in image && Grows(e, image[id])
  }

  // ----- how a step moves a host -----

  /** One entry grew; the others stayed. */
  ghost predicate Moves(h: Host, g: Host, id: Uuid) {
    HostSteps.Grown(h, g, id) && forall k: Uuid :: k != id ==> Framed(h, g, k)
  }

  lemma RunMoves(h: Host, id: Uuid, run: Option<Run>)
    ensures Moves(h, SetRun(h, id, run), id)
  {
    HostSteps.RunFrames(h, id, run);
  }

  lemma WriteMoves(h: Host, id: Uuid, change: Option<Entry>, io: Io, done: Option<Run>, thrown: Option<Run>)
    requires id in h.memory
    requires change.Some? && ValidEntry(change.value) ==> Grows(h.memory[id], change.value)
    ensures Moves(h, Write(h, id, change, io, done, thrown), id)
  {
    hide ValidEntry, Grows, Framed, HostSteps.Grown;
    RunMoves(h, id, thrown);
    if change.Some? { HostSteps.StoreFrames(h, id, change.value, io, if io == Durable then done else thrown); }
  }

  lemma EntryIsValid(w: World, agent: Uuid, id: Uuid)
    requires Inv(w) && agent in w.hosts && id in w.hosts[agent].memory
    ensures ValidEntry(w.hosts[agent].memory[id])
  {
    hide Inv;
    HostSteps.Inside(w, agent, id);
    assert w.hosts[agent].memory in Images(w.hosts[agent]);
    assert EntryInv(w, agent, id, w.hosts[agent].memory[id]);
  }

  lemma SavingMoves(w: World, s: Step)
    requires Inv(w) && Enabled(w, s) && Saves(s)
    ensures Moves(w.hosts[s.agent], Next(w, s).hosts[s.agent], s.id)
  {
    hide Inv, Moves, Write, ValidEntry, Grows, Rests, RestsOnTarget, ProperResult, MustRetire, Inspectable;
    var e := w.hosts[s.agent].memory[s.id];
    EntryIsValid(w, s.agent, s.id);
    if SaveResult(e, s.result).Some? { SaveResultGrows(e, s.result); }
    WriteMoves(w.hosts[s.agent], s.id, SaveResult(e, s.result), s.io, Some(Saved), None);
  }

  lemma ClaimMoves(w: World, s: Step)
    requires Inv(w) && Enabled(w, s) && (s.TakeClaim? || s.TakeExpiry?)
    ensures Moves(w.hosts[s.agent], Next(w, s).hosts[s.agent], s.id)
  {
    hide Inv, Moves, Write, SetRun, ValidEntry, Grows;
    var (h, id) := (w.hosts[s.agent], s.id);
    var e := h.memory[id];
    EntryIsValid(w, s.agent, id);
    RunMoves(h, id, None);
    if s.TakeClaim? {
      if RecordClaim(e, s.record).Some? { RecordClaimGrows(e, s.record); }
      WriteMoves(h, id, RecordClaim(e, s.record), s.io, Some(Deciding(s.record)), None);
    } else {
      RetireGrows(e, s.at);
      WriteMoves(h, id, Some(Retire(e, s.at)), s.io, None, None);
    }
  }

  lemma EffectMoves(w: World, s: Step)
    requires Inv(w) && Enabled(w, s) && (s.Begin? || s.PersistTarget?)
    ensures Moves(w.hosts[s.agent], Next(w, s).hosts[s.agent], s.id)
  {
    hide Inv, Moves, Write, SetRun, ValidEntry, Grows, MustRetire;
    var (h, id) := (w.hosts[s.agent], s.id);
    var e := h.memory[id];
    EntryIsValid(w, s.agent, id);
    RunMoves(h, id, None);
    if s.Begin? {
      if BeginEffect(e, s.at).Some? {
        BeginEffectGrows(e, s.at);
        WriteMoves(h, id, Some(BeginEffect(e, s.at).value.0), s.io, Some(Begun), None);
      }
    } else {
      if PersistStopTarget(e, s.target).Some? { PersistStopTargetGrows(e, s.target); }
      WriteMoves(h, id, PersistStopTarget(e, s.target), s.io, Some(Targeted(s.target)), Some(Broken));
    }
  }

  lemma ClosingMoves(w: World, s: Step)
    requires Inv(w) && Enabled(w, s) && (s.RetireSettled? || s.TakeReceipt?)
    ensures Moves(w.hosts[s.agent], Next(w, s).hosts[s.agent], s.id)
  {
    hide Inv, Moves, Write, ValidEntry, Grows, MustRetire;
    var (h, id) := (w.hosts[s.agent], s.id);
    var e := h.memory[id];
    EntryIsValid(w, s.agent, id);
    if s.RetireSettled? {
      RetireGrows(e, s.at);
      WriteMoves(h, id, Some(Retire(e, s.at)), s.io, None, None);
    } else {
      if Acknowledge(e, s.at).Some? { AcknowledgeGrows(e, s.at); }
      WriteMoves(h, id, Acknowledge(e, s.at), s.io, None, None);
    }
  }

  /** The run a host's step leaves for its command. */
  function RunLeft(w: World, s: Step): Option<Run>
    requires Outcomes.HostStep(s) && !s.Receive? && !s.PruneJournal? && !s.Crash? && !s.Enroll? && s.agent in w.hosts
    requires s.SendResult? ==> s.id in w.hosts[s.agent].memory
  {
    if s.StartRun? && s.id in w.hosts[s.agent].memory then Some(Claiming(s.request, w.hosts[s.agent].memory[s.id]))
    else if s.KeepResult? then Some(Saved)
    else if s.Invoke? then Some(Invoked)
    else if s.Spawn? || s.Signal? then Some(Driven)
    else if s.SendResult? then Some(Publishing(s.request))
    else None
  }

  lemma RunStepMoves(w: World, s: Step)
    requires Enabled(w, s) && Outcomes.HostStep(s) && !Outcomes.WriteStep(s) && !s.Receive? && !s.PruneJournal?
             && !s.Crash?
    ensures Moves(w.hosts[s.agent], Next(w, s).hosts[s.agent], s.id)
  {
    hide Rests, RestsOnTarget, ProperResult, MustRetire, Inspectable, Moves, SetRun;
    RunMoves(w.hosts[s.agent], s.id, RunLeft(w, s));
  }

  // ----- what a move keeps -----

  lemma GrownStays(h: Host, g: Host, id: Uuid, e: Entry)
    requires GrewFrom(h, id, e) && HostSteps.Grown(h, g, id)
    requires forall image: Image :: image in Images(h) && id in image ==> ValidEntry(image[id])
    requires forall image: Image :: image in Images(g) && id in image ==> ValidEntry(image[id])
    requires ValidEntry(e)
    ensures GrewFrom(g, id, e)
  {
    hide ValidEntry, Grows;
    assert h.memory in Images(h);
    if id !in g.pruned {
      forall image: Image | image in Images(g) ensures id in image && Grows(e, image[id]) {
        if image !in Images(h) { GrowsTransitive(e, h.memory[id], image[id]); }
      }
    }
  }

  lemma FramedStays(h: Host, g: Host, id: Uuid, e: Entry)
    requires GrewFrom(h, id, e) && Framed(h, g, id)
    ensures GrewFrom(g, id, e)
  {
    hide Grows;
    if id !in g.pruned {
      forall image: Image | image in Images(g) ensures id in image && Grows(e, image[id]) {
        var before := FramedImage(h, g, id, image);
      }
    }
  }

  lemma SubsumedStays(h: Host, g: Host, id: Uuid, e: Entry)
    requires GrewFrom(h, id, e) && Subsumed(h, g, id)
    ensures GrewFrom(g, id, e)
  {
    hide Grows;
  }

  lemma ImagesAreValid(w: World, agent: Uuid, id: Uuid)
    requires Inv(w) && agent in w.hosts
    ensures forall image: Image :: image in Images(w.hosts[agent]) && id in image ==> ValidEntry(image[id])
  {
    hide Inv;
    HostSteps.Inside(w, agent, id);
    forall image: Image | image in Images(w.hosts[agent]) && id in image ensures ValidEntry(image[id]) {
      assert EntryInv(w, agent, id, image[id]);
    }
  }

  lemma ReplacedSubsumes(w: World, v: World, agent: Uuid, id: Uuid)
    requires Replaced(w, v, agent)
    ensures Subsumed(w.hosts[agent], v.hosts[agent], id)
  {
  }

  // ----- every step -----

  lemma WriteStepMoves(w: World, s: Step)
    requires Inv(w) && Enabled(w, s) && Outcomes.WriteStep(s)
    ensures Moves(w.hosts[s.agent], Next(w, s).hosts[s.agent], s.id)
  {
    hide Inv, Enabled, Next, Moves;
    if Saves(s) {
      SavingMoves(w, s);
    } else if s.TakeClaim? || s.TakeExpiry? {
      ClaimMoves(w, s);
    } else if s.Begin? || s.PersistTarget? {
      EffectMoves(w, s);
    } else {
      ClosingMoves(w, s);
    }
  }

  lemma MovesKeep(w: World, s: Step, agent: Uuid, moved: Uuid, id: Uuid, e: Entry)
    requires Inv(w) && Enabled(w, s) && agent in w.hosts && agent in Next(w, s).hosts
    requires Moves(w.hosts[agent], Next(w, s).hosts[agent], moved)
    requires ValidEntry(e) && GrewFrom(w.hosts[agent], id, e)
    ensures GrewFrom(Next(w, s).hosts[agent], id, e)
  {
    hide Inv, Enabled, Next, ValidEntry, GrewFrom, Framed, HostSteps.Grown;
    if id == moved {
      NextKeepsInv(w, s);
      ImagesAreValid(w, agent, id);
      ImagesAreValid(Next(w, s), agent, id);
      GrownStays(w.hosts[agent], Next(w, s).hosts[agent], id, e);
    } else {
      FramedStays(w.hosts[agent], Next(w, s).hosts[agent], id, e);
    }
  }

  /** A receipt starts an entry only where memory shows none. */
  lemma ReceiveKeeps(w: World, s: Step, id: Uuid, e: Entry)
    requires Enabled(w, s) && s.Receive? && GrewFrom(w.hosts[s.agent], id, e)
    ensures GrewFrom(Next(w, s).hosts[s.agent], id, e)
  {
    hide Grows;
    var h := w.hosts[s.agent];
    assert h.memory in Images(h);
  }

  lemma ReplacingKeeps(w: World, s: Step, id: Uuid, e: Entry)
    requires Inv(w) && Enabled(w, s) && (s.PruneJournal? || s.Crash?) && GrewFrom(w.hosts[s.agent], id, e)
    ensures GrewFrom(Next(w, s).hosts[s.agent], id, e)
  {
    hide Inv, GrewFrom, Replaced, Subsumed;
    if s.PruneJournal? { PruneReplaces(w, s.agent, s.cutoff, s.io); } else { CrashReplaces(w, s.agent, s.image); }
    ReplacedSubsumes(w, Next(w, s), s.agent, id);
    SubsumedStays(w.hosts[s.agent], Next(w, s).hosts[s.agent], id, e);
  }

  lemma HostStays(w: World, s: Step, agent: Uuid)
    requires Enabled(w, s) && agent in w.hosts
    ensures agent in Next(w, s).hosts
    ensures s.Enroll? ==> s.agent != agent
  {
    hide Enabled, Next;
    if Outcomes.HostStep(s) {
      Outcomes.HostStepIsLocal(w, s);
    } else if s.Enroll? {
      Outcomes.EnrollAddsHost(w, s);
    } else {
      Outcomes.ElsewhereLeavesHosts(w, s);
    }
  }

  lemma StepKeeps(w: World, s: Step, agent: Uuid, id: Uuid, e: Entry)
    requires Inv(w) && Enabled(w, s) && agent in w.hosts && ValidEntry(e) && GrewFrom(w.hosts[agent], id, e)
    ensures agent in Next(w, s).hosts && GrewFrom(Next(w, s).hosts[agent], id, e)
  {
    hide Inv, Enabled, Next, ValidEntry, GrewFrom, Moves;
    HostStays(w, s, agent);
    if !(Outcomes.HostStep(s) && Outcomes.About(s).0 == agent) {
      Outcomes.OtherHostStays(w, s, agent);
    } else if Outcomes.WriteStep(s) {
      WriteStepMoves(w, s);
      MovesKeep(w, s, agent, s.id, id, e);
    } else if s.Receive? {
      ReceiveKeeps(w, s, id, e);
    } else if s.PruneJournal? || s.Crash? {
      ReplacingKeeps(w, s, id, e);
    } else {
      RunStepMoves(w, s);
      MovesKeep(w, s, agent, s.id, id, e);
    }
  }

  // ----- main result -----

  /** In every execution, an entry that every content of a journal shows is at every later
      moment pruned or shown, grown, by every content: its command, claim time, effect
      marker, stop target, verified result and retirement are never lost or rewritten. */
  lemma {:induction false} EntriesOnlyGrow(
    worlds: seq<World>, steps: seq<Step>, j: nat, k: nat, agent: Uuid, id: Uuid, e: Entry)
    requires Execution(worlds, steps) && j <= k < |worlds| && agent in worlds[j].hosts
             && Shows(worlds[j].hosts[agent], id, e)
    ensures agent in worlds[k].hosts && GrewFrom(worlds[k].hosts[agent], id, e)
  {
    hide Inv, Enabled, Next, ValidEntry, GrewFrom, Shows;
    ShownIsValid(worlds, steps, j, agent, id, e);
    if j == k {
      ShownGrewFrom(worlds[k].hosts[agent], id, e);
    } else {
      EntriesOnlyGrow(worlds, steps, j, k - 1, agent, id, e);
      ExecutionKeepsInv(worlds, steps, k - 1);
      assert Enabled(worlds[k - 1], steps[k - 1]) && worlds[k] == Next(worlds[k - 1], steps[k - 1]);
      StepKeeps(worlds[k - 1], steps[k - 1], agent, id, e);
    }
  }

  lemma ShownIsValid(worlds: seq<World>, steps: seq<Step>, j: nat, agent: Uuid, id: Uuid, e: Entry)
    requires Execution(worlds, steps) && j < |worlds| && agent in worlds[j].hosts
             && Shows(worlds[j].hosts[agent], id, e)
    ensures ValidEntry(e)
  {
    hide Inv, Enabled, Next, ValidEntry;
    ExecutionKeepsInv(worlds, steps, j);
    ImagesAreValid(worlds[j], agent, id);
    assert worlds[j].hosts[agent].memory in Images(worlds[j].hosts[agent]);
  }

  lemma ShownGrewFrom(h: Host, id: Uuid, e: Entry)
    requires Shows(h, id, e) && ValidEntry(e)
    ensures GrewFrom(h, id, e)
  {
    assert Grows(e, e);
  }
}
