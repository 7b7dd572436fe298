/** What an entry of the journal holds, told from everything that was ever asked of it. */
module JournalHistory {
  import opened Prelude
  import opened Wire
  import opened Journal

  datatype Change =
    | Claims(record: Record)
    | Begins(at: int)
    | Targets(target: StopTarget)
    | Saves(result: CommandResult)
    | Acknowledges(at: int)
    | Retires(at: int)

  /** A refused change leaves the entry as it was. */
  function Changed(e: Entry, c: Change): Entry {
    var next :=
      match c
      case Claims(record) => RecordClaim(e, record)
      case Begins(at) => var begun := BeginEffect(e, at); if begun.Some? then Some(begun.value.0) else None
      case Targets(target) => PersistStopTarget(e, target)
      case Saves(result) => SaveResult(e, result)
      case Acknowledges(at) => Acknowledge(e, at)
      case Retires(at) => Some(Retire(e, at));
    if next.Some? then next.value else e
  }

  function After(e: Entry, changes: seq<Change>): Entry {
    if changes == [] then e else Changed(After(e, changes[..|changes| - 1]), changes[|changes| - 1])
  }

  // ----- what sets a field -----

  /** One change sets a field, takes its value away, or does neither. */
  datatype Mark<T> = Leaves | Sets(value: T) | Clears

  function Marks<T>(e: Entry, changes: seq<Change>, mark: (Entry, Change) -> Mark<T>): (marks: seq<Mark<T>>)
    ensures |marks| == |changes|
  {
    var n := |changes| - 1;
    if n < 0 then [] else Marks(e, changes[..n], mark) + [mark(After(e, changes[..n]), changes[n])]
  }

  /** What was set last. */
  ghost predicate Latest<T>(marks: seq<Mark<T>>, value: Option<T>) {
    && (value.None? ==>
        forall j :: 0 <= j < |marks| && marks[j].Sets? ==> exists k :: j < k < |marks| && marks[k].Clears?)
    && (value.Some? ==>
          exists j :: 0 <= j < |marks| && marks[j] == Sets(value.value) && forall k :: j < k < |marks| ==>
            marks[k].Leaves?)
  }

  /** What was set first since it was last taken away. */
  ghost predicate Earliest<T>(marks: seq<Mark<T>>, value: Option<T>) {
    && (value.None? ==>
        forall j :: 0 <= j < |marks| && marks[j].Sets? ==> exists k :: j < k < |marks| && marks[k].Clears?)
    && (value.Some? ==>
          exists j :: 0 <= j < |marks| && marks[j] == Sets(value.value)
                      && (forall k :: j < k < |marks| ==> !marks[k].Clears?)
                      && (forall i :: 0 <= i < j && marks[i].Sets? ==> exists k :: i < k < j && marks[k].Clears?))
  }

  lemma LatestOneMore<T>(marks: seq<Mark<T>>, value: Option<T>, m: Mark<T>)
    requires Latest(marks, value)
    ensures Latest(marks + [m], if m.Sets? then Some(m.value) else if m.Clears? then None else value)
  {
    var (all, n) := (marks + [m], |marks|);
    assert all[n] == m;
    if m.Leaves? && value.Some? {
      var j :| 0 <= j < n && marks[j] == Sets(value.value) && forall k :: j < k < n ==> marks[k].Leaves?;
      assert all[j] == Sets(value.value);
    } else if m.Leaves? {
      forall j | 0 <= j < |all| && all[j].Sets? ensures exists k :: j < k < |all| && all[k].Clears? {
        var k :| j < k < n && marks[k].Clears?;
        assert all[k].Clears?;
      }
    }
  }

  lemma EarliestOneMore<T>(marks: seq<Mark<T>>, value: Option<T>, m: Mark<T>)
    requires Earliest(marks, value)
    ensures Earliest(marks + [m], if m.Clears? then None else if value.Some? || m.Leaves? then value else Some(m.value))
  {
    var (all, n) := (marks + [m], |marks|);
    assert all[n] == m;
    if !m.Clears? && value.Some? {
      var j :| 0 <= j < n && marks[j] == Sets(value.value) && (forall k :: j < k < n ==> !marks[k].Clears?)
               && forall i :: 0 <= i < j && marks[i].Sets? ==> exists k :: i < k < j && marks[k].Clears?;
      assert all[j] == Sets(value.value);
      forall i | 0 <= i < j && all[i].Sets? ensures exists k :: i < k < j && all[k].Clears? {
        var k :| i < k < j && marks[k].Clears?;
        assert all[k].Clears?;
      }
    } else if !m.Clears? {
      forall i | 0 <= i < n && all[i].Sets? ensures exists k :: i < k < n && all[k].Clears? {
        var k :| i < k < n && marks[k].Clears?;
        assert all[k].Clears?;
      }
    }
  }

  /** A claim is taken for this command and this agent, and never with another claim time. */
  function ClaimMark(e: Entry, c: Change): Mark<Record> {
    if c.Claims? && ValidRecord(c.record) && SameCommand(e.command, c.record.command)
       && (c.record.owner.Some? ==> c.record.owner.value.agentId == e.agentId)
       && (e.claim.Some? && e.claim.value.claimedAt.Some? ==> c.record.claimedAt == e.claim.value.claimedAt)
    then Sets(c.record) else Leaves
  }

  /** The effect begins under an executing claim, before any result. */
  function BeginMark(e: Entry, c: Change): Mark<int> {
    if c.Begins? && e.claim.Some? && e.claim.value.state == Executing && e.result.None? then Sets(c.at) else Leaves
  }

  /** A stop that began names what it is about to signal. */
  function TargetMark(e: Entry, c: Change): Mark<StopTarget> {
    if c.Targets? && e.command.operation == Stop && e.effectStartedAt.Some? && c.target.canonicalPath == e.canonicalPath
    then Sets(c.target) else Leaves
  }

  /** A result is saved of a claimed command, over nothing or, once verified, over an unknown one. */
  function ResultMark(e: Entry, c: Change): Mark<CommandResult> {
    if c.Saves? && Reportable(c.result.state) && c.result.commandId == e.command.commandId
       && e.claim.Some? && e.claim.value.claimedAt.Some?
       && (e.result.None? || (e.result.value.state == Unknown && c.result.state != Unknown))
    then Sets(c.result) else Leaves
  }

  /** A result there is can be acknowledged; a later one has to be acknowledged anew. */
  function ReceiptMark(e: Entry, c: Change): Mark<int> {
    if c.Acknowledges? && e.result.Some? then Sets(c.at)
    else if e.result.Some? && ResultMark(e, c).Sets? then Clears
    else Leaves
  }

  function RetireMark(e: Entry, c: Change): Mark<int> { if c.Retires? then Sets(c.at) else Leaves }

  // ----- what an entry holds -----

  /** Of all that was asked of an entry since it was received: the last claim taken, the first marker, the first
      target, the last result, the first receipt for that result, and the first retirement. */
  ghost predicate Remembers(e: Entry, changes: seq<Change>, f: Entry) {
    && f.command == e.command && f.agentId == e.agentId && f.canonicalPath == e.canonicalPath
    && Latest(Marks(e, changes, ClaimMark), f.claim)
    && Earliest(Marks(e, changes, BeginMark), f.effectStartedAt)
    && Earliest(Marks(e, changes, TargetMark), f.stopTarget)
    && Latest(Marks(e, changes, ResultMark), f.result)
    && Earliest(Marks(e, changes, ReceiptMark), f.acknowledgedAt)
    && f.acknowledged == f.acknowledgedAt.Some?
    && Earliest(Marks(e, changes, RetireMark), f.retiredAt)
  }

  lemma OneChange(e: Entry, c: Change)
    requires e.acknowledged == e.acknowledgedAt.Some? && (e.acknowledged ==> e.result.Some?)
    ensures var f := Changed(e, c);
            && f.command == e.command && f.agentId == e.agentId && f.canonicalPath == e.canonicalPath
            && f.claim == (if ClaimMark(e, c).Sets? then Some(c.record) else e.claim)
            && f.effectStartedAt
               == (if e.effectStartedAt.None? && BeginMark(e, c).Sets? then Some(c.at) else e.effectStartedAt)
            && f.stopTarget == (if e.stopTarget.None? && TargetMark(e, c).Sets? then Some(c.target) else e.stopTarget)
            && f.result == (if ResultMark(e, c).Sets? then Some(c.result) else e.result)
            && f.acknowledgedAt
               == (if ReceiptMark(e, c).Clears? then None
                   else if e.acknowledgedAt.None? && ReceiptMark(e, c).Sets? then Some(c.at) else e.acknowledgedAt)
            && f.retiredAt == (if e.retiredAt.None? && RetireMark(e, c).Sets? then Some(c.at) else e.retiredAt)
            && f.acknowledged == f.acknowledgedAt.Some? && (f.acknowledged ==> f.result.Some?)
  {
  }

  lemma {:induction false} EntryRemembers(command: Command, agentId: Uuid, path: string, changes: seq<Change>)
    ensures var e := Receipt(command, agentId, path);
            Remembers(e, changes, After(e, changes))
              && (After(e, changes).acknowledged ==> After(e, changes).result.Some?)
  {
    var e := Receipt(command, agentId, path);
    if changes != [] {
      var n := |changes| - 1;
      EntryRemembers(command, agentId, path, changes[..n]);
      RemembersOneMore(e, changes[..n], changes[n]);
      assert changes == changes[..n] + [changes[n]];
    }
  }

  lemma MarksOneMore<T>(e: Entry, changes: seq<Change>, c: Change, mark: (Entry, Change) -> Mark<T>)
    ensures Marks(e, changes + [c], mark) == Marks(e, changes, mark) + [mark(After(e, changes), c)]
  {
    assert (changes + [c])[..|changes|] == changes;
  }

  lemma RemembersOneMore(e: Entry, changes: seq<Change>, c: Change)
    requires Remembers(e, changes, After(e, changes))
             && (After(e, changes).acknowledged ==> After(e, changes).result.Some?)
    ensures Remembers(e, changes + [c], After(e, changes + [c]))
    ensures After(e, changes + [c]).acknowledged ==> After(e, changes + [c]).result.Some?
  {
    hide Latest, Earliest, ClaimMark, BeginMark, TargetMark, ResultMark, ReceiptMark, RetireMark, Changed, Marks;
    var f := After(e, changes);
    assert After(e, changes + [c]) == Changed(f, c) by { assert (changes + [c])[..|changes|] == changes; }
    OneChange(f, c);
    MarkSets(f, c);
    MarksOneMore(e, changes, c, ClaimMark);
    LatestOneMore(Marks(e, changes, ClaimMark), f.claim, ClaimMark(f, c));
    MarksOneMore(e, changes, c, BeginMark);
    EarliestOneMore(Marks(e, changes, BeginMark), f.effectStartedAt, BeginMark(f, c));
    MarksOneMore(e, changes, c, TargetMark);
    EarliestOneMore(Marks(e, changes, TargetMark), f.stopTarget, TargetMark(f, c));
    MarksOneMore(e, changes, c, ResultMark);
    LatestOneMore(Marks(e, changes, ResultMark), f.result, ResultMark(f, c));
    MarksOneMore(e, changes, c, ReceiptMark);
    EarliestOneMore(Marks(e, changes, ReceiptMark), f.acknowledgedAt, ReceiptMark(f, c));
    MarksOneMore(e, changes, c, RetireMark);
    EarliestOneMore(Marks(e, changes, RetireMark), f.retiredAt, RetireMark(f, c));
  }

  lemma MarkSets(f: Entry, c: Change)
    ensures ClaimMark(f, c).Leaves? || ClaimMark(f, c) == Sets(c.record)
    ensures BeginMark(f, c).Leaves? || BeginMark(f, c) == Sets(c.at)
    ensures TargetMark(f, c).Leaves? || TargetMark(f, c) == Sets(c.target)
    ensures ResultMark(f, c).Leaves? || ResultMark(f, c) == Sets(c.result)
    ensures !ReceiptMark(f, c).Sets? || ReceiptMark(f, c) == Sets(c.at)
    ensures RetireMark(f, c).Leaves? || RetireMark(f, c) == Sets(c.at)
  {
  }

  /** Polling leaves an entry alone once it was retired, or its verified result acknowledged. */
  lemma FinishedIsSettled(command: Command, agentId: Uuid, path: string, changes: seq<Change>)
    ensures var f := After(Receipt(command, agentId, path), changes);
            Finished(f) <==>
              || (exists j :: 0 <= j < |changes| && changes[j].Retires?)
              || (f.acknowledgedAt.Some? && f.result.Some? && f.result.value.state != Unknown)
  {
    var e := Receipt(command, agentId, path);
    EntryRemembers(command, agentId, path, changes);
    RetirementsAreMarks(e, changes);
  }

  lemma {:induction false} RetirementsAreMarks(e: Entry, changes: seq<Change>)
    ensures forall j :: 0 <= j < |changes| ==>
              Marks(e, changes, RetireMark)[j] == if changes[j].Retires? then Sets(changes[j].at) else Leaves
  {
    if changes != [] { RetirementsAreMarks(e, changes[..|changes| - 1]); }
  }

  // ----- pruning -----

  /** Thirty days after an entry was retired, or else after its verified result was acknowledged, it is pruned; an
      unknown result keeps it until it is retired. */
  lemma PrunedAfterThirtyDays(image: Image, now: int, id: Uuid)
    requires id in image
    ensures var (e, kept) := (image[id], Pruned(image, now - JOURNAL_RETENTION_MS));
            && (id in kept ==> kept[id] == e)
            && (id !in kept <==>
                  if e.retiredAt.Some? then e.retiredAt.value + 30 * 24 * 3_600_000 <= now
                  else e.acknowledgedAt.Some? && (e.result.Some? ==> e.result.value.state != Unknown)
                       && e.acknowledgedAt.value + 30 * 24 * 3_600_000 <= now)
  {
  }
}
