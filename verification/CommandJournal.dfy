/**
 The journal object of one agent: its entries in memory, and every content its
 file may show after a crash. A write renames a complete file into place before
 the directory is synced, and memory follows last.
 */
module CommandJournal {
  import opened Prelude
  import opened Wire
  import opened Journal
  import J = Journal
  import W = World

  function Identifier(e: Entry): Uuid { e.command.commandId }

  ghost predicate Distinct(entries: seq<Entry>) {
    forall i, j :: 0 <= i < j < |entries| ==> Identifier(entries[i]) != Identifier(entries[j])
  }

  /** What loading demands of a file. */
  ghost predicate Parses(entries: seq<Entry>) {
    Distinct(entries) && forall k :: 0 <= k < |entries| ==> ValidEntry(entries[k])
  }

  ghost predicate Belongs(entries: seq<Entry>, agentId: Uuid, environmentId: Uuid) {
    forall k :: 0 <= k < |entries| ==>
      entries[k].agentId == agentId && entries[k].command.environmentId == environmentId
  }

  ghost function ImageOf(entries: seq<Entry>): Image {
    if entries == [] then map[]
    else ImageOf(entries[..|entries| - 1])[Identifier(entries[|entries| - 1]) := entries[|entries| - 1]]
  }

  /** The image holds exactly these entries, each under its own identifier. */
  ghost predicate Shows(image: Image, entries: seq<Entry>) {
    && (forall id :: id in image ==> image[id] in entries && Identifier(image[id]) == id)
    && (forall e :: e in entries ==> Identifier(e) in image && image[Identifier(e)] == e)
  }

  lemma ShowsOneMore(image: Image, entries: seq<Entry>, last: Entry)
    requires Shows(image, entries) && forall e :: e in entries ==> Identifier(e) != Identifier(last)
    ensures Shows(image[Identifier(last) := last], entries + [last])
  {
  }

  lemma {:induction false} ImageMembers(entries: seq<Entry>)
    requires Distinct(entries)
    ensures Shows(ImageOf(entries), entries)
  {
    if entries != [] {
      hide Shows;
      var (rest, last) := (entries[..|entries| - 1], entries[|entries| - 1]);
      ImageMembers(rest);
      assert entries == rest + [last];
      forall e | e in rest ensures Identifier(e) != Identifier(last) {
        var k :| 0 <= k < |rest| && rest[k] == e;
        assert entries[k] == e;
      }
      ShowsOneMore(ImageOf(rest), rest, last);
    }
  }

  /** An image with exactly these entries is their image. */
  lemma ShownImage(entries: seq<Entry>, image: Image)
    requires Distinct(entries)
    requires forall id :: id in image ==> image[id] in entries && Identifier(image[id]) == id
    requires forall e :: e in entries ==> Identifier(e) in image
    ensures ImageOf(entries) == image
  {
    hide ImageOf;
    ImageMembers(entries);
    forall id ensures id in ImageOf(entries) <==> id in image {
      if id in image { assert Identifier(image[id]) in ImageOf(entries); }
    }
    forall id | id in image ensures ImageOf(entries)[id] == image[id] {
      assert ImageOf(entries)[Identifier(image[id])] == image[id];
    }
  }

  /** Replacing one entry replaces it in the image. */
  lemma ImageOfChange(entries: seq<Entry>, index: nat, e: Entry)
    requires Distinct(entries) && index < |entries| && Identifier(e) == Identifier(entries[index])
    ensures Distinct(entries[index := e])
    ensures ImageOf(entries[index := e]) == ImageOf(entries)[Identifier(e) := e]
  {
    hide ImageOf;
    var (next, image) := (entries[index := e], ImageOf(entries)[Identifier(e) := e]);
    ImageMembers(entries);
    forall f | f in next ensures Identifier(f) in image {
      if f != e {
        var k :| 0 <= k < |next| && next[k] == f;
        assert f == entries[k];
      }
    }
    forall id | id in image ensures image[id] in next && Identifier(image[id]) == id {
      if id == Identifier(e) {
        assert next[index] == e;
      } else {
        var k :| 0 <= k < |entries| && entries[k] == image[id];
        assert next[k] == image[id];
      }
    }
    ShownImage(next, image);
  }

  lemma ImageOfAppend(entries: seq<Entry>, e: Entry)
    requires Distinct(entries) && Identifier(e) !in ImageOf(entries)
    ensures Distinct(entries + [e]) && ImageOf(entries + [e]) == ImageOf(entries)[Identifier(e) := e]
  {
    ImageMembers(entries);
    assert (entries + [e])[..|entries|] == entries;
  }

  // ----- pruning -----

  function Retaining(entries: seq<Entry>, cutoff: int): seq<Entry> {
    if entries == [] then []
    else (if Prunable(entries[0], cutoff) then [] else [entries[0]]) + Retaining(entries[1..], cutoff)
  }

  lemma {:induction false} RetainingMembers(entries: seq<Entry>, cutoff: int)
    ensures forall e :: e in Retaining(entries, cutoff) <==> e in entries && !Prunable(e, cutoff)
    ensures Distinct(entries) ==> Distinct(Retaining(entries, cutoff))
  {
    if entries != [] {
      RetainingMembers(entries[1..], cutoff);
      var rest := Retaining(entries[1..], cutoff);
      if Distinct(entries) && !Prunable(entries[0], cutoff) {
        forall j | 0 <= j < |rest| ensures Identifier(rest[j]) != Identifier(entries[0]) {
          assert rest[j] in entries[1..];
        }
      }
    }
  }

  lemma RetainingImage(entries: seq<Entry>, cutoff: int)
    requires Distinct(entries)
    ensures ImageOf(Retaining(entries, cutoff)) == Pruned(ImageOf(entries), cutoff)
  {
    hide ImageOf, Prunable, Retaining;
    RetainingMembers(entries, cutoff);
    ImageMembers(entries);
    ShownImage(Retaining(entries, cutoff), Pruned(ImageOf(entries), cutoff));
  }

  lemma RetainingParses(entries: seq<Entry>, cutoff: int, agentId: Uuid, environmentId: Uuid)
    requires Parses(entries) && Belongs(entries, agentId, environmentId)
    ensures Parses(Retaining(entries, cutoff)) && Belongs(Retaining(entries, cutoff), agentId, environmentId)
  {
    hide ValidEntry, Prunable;
    var kept := Retaining(entries, cutoff);
    RetainingMembers(entries, cutoff);
    forall k | 0 <= k < |kept|
      ensures ValidEntry(kept[k]) && kept[k].agentId == agentId && kept[k].command.environmentId == environmentId
    {
      assert kept[k] in entries;
    }
  }

  // ----- reading a file -----

  /** The check every write and every load runs. */
  method ParseState(entries: seq<Entry>) returns (parsed: bool)
    ensures parsed <==> Parses(entries)
  {
    var ids: set<Uuid> := {};
    var k := 0;
    while k < |entries|
      invariant 0 <= k <= |entries| && Parses(entries[..k])
      invariant ids == set i | 0 <= i < k :: Identifier(entries[i])
    {
      var entry := entries[k];
      if Identifier(entry) in ids || !ValidEntry(entry) {
        return false;
      }
      ids := ids + {Identifier(entry)};
      k := k + 1;
    }
    assert entries[..k] == entries;
    return true;
  }

  /** A file opens when it parses and every entry belongs to the enrolled identity. */
  method Opens(entries: seq<Entry>, identity: Option<(Uuid, Uuid)>) returns (opens: bool)
    ensures opens <==> Parses(entries)
                       && (entries == [] || (identity.Some? && Belongs(entries, identity.value.0, identity.value.1)))
  {
    opens := ParseState(entries);
    var k := 0;
    while opens && k < |entries|
      invariant opens ==> 0 <= k <= |entries| && Parses(entries)
      invariant opens && k > 0 ==> identity.Some? && Belongs(entries[..k], identity.value.0, identity.value.1)
      invariant !opens ==>
                !(Parses(entries)
                  && (entries == [] || (identity.Some? && Belongs(entries, identity.value.0, identity.value.1))))
      decreases opens, |entries| - k
    {
      var entry := entries[k];
      if identity.None? || entry.agentId != identity.value.0 || entry.command.environmentId != identity.value.1 {
        opens := false;
      }
      k := k + 1;
    }
    if opens && entries != [] { assert entries[..k] == entries; }
  }

  // ----- the journal object -----

  /** What looking for a retained receipt finds. */
  datatype Receipt = Held(entry: Entry) | Missing | Conflict

  /** A change that applies, parses and reaches the disk. */
  predicate Written(change: Option<Entry>, io: W.Io) { change.Some? && ValidEntry(change.value) && io == W.Durable }

  /** No entry goes and none loses what is written once. */
  ghost predicate NothingRewritten(before: Image, after: Image) {
    forall id :: id in before ==> id in after && Grows(before[id], after[id])
  }

  lemma NoRuns(h: W.Host, id: Uuid)
    requires h.runs == map[]
    ensures W.SetRun(h, id, None) == h
  {
    assert h.runs - {id} == h.runs;
  }

  lemma ReceiptValidity(command: Command, agentId: Uuid, path: string)
    requires PositiveLifetime(command)
    ensures ValidEntry(J.Receipt(command, agentId, path)) <==> path != "" && path[0] == '/'
  {
  }

  class CommandJournal {
    const agentId: Uuid
    const environmentId: Uuid
    var entries: seq<Entry>
    ghost var disk: set<seq<Entry>>

    ghost predicate Opened(file: seq<Entry>) { Parses(file) && Belongs(file, agentId, environmentId) }

    /** Whatever a crash reveals opens again for the same identity. */
    ghost predicate Valid()
      reads this
    {
      Opened(entries) && forall file :: file in disk ==> Opened(file)
    }

    ghost function Memory(): Image
      reads this
    {
      ImageOf(entries)
    }

    /** This journal as the journal part of a host. */
    ghost function View(): W.Host
      reads this
    {
      W.Host(environmentId, Memory(), set file | file in disk :: ImageOf(file), map[], {})
    }

    constructor (agentId: Uuid, environmentId: Uuid, file: seq<Entry>)
      requires Parses(file) && Belongs(file, agentId, environmentId)
      ensures Valid() && View() == W.Host(environmentId, ImageOf(file), {ImageOf(file)}, map[], {})
      ensures this.agentId == agentId && this.environmentId == environmentId
    {
      this.agentId, this.environmentId := agentId, environmentId;
      entries, disk := file, {file};
    }

    method Find(id: Uuid) returns (index: int)
      requires Valid()
      ensures if id in Memory() then 0 <= index < |entries| && Identifier(entries[index]) == id
              && entries[index] == Memory()[id]
              else index == -1
    {
      hide ImageOf, ValidEntry;
      ImageMembers(entries);
      index := 0;
      while index < |entries|
        invariant 0 <= index <= |entries|
        invariant forall k :: 0 <= k < index ==> Identifier(entries[k]) != id
      {
        if Identifier(entries[index]) == id {
          assert entries[index] in entries;
          return;
        }
        index := index + 1;
      }
      index := -1;
    }

    /** Replaces the file with `next`, unless parsing refuses it or the write fails. */
    method Update(next: seq<Entry>, io: W.Io) returns (ok: bool)
      requires Valid() && Belongs(next, agentId, environmentId)
      modifies this
      ensures Valid()
      ensures ok == (Parses(next) && io == W.Durable)
      ensures if Parses(next) then View() == W.Store(old(View()), ImageOf(next), io) else unchanged(this)
      ensures entries == if ok then next else old(entries)
    {
      hide ImageOf, ValidEntry, Distinct;
      var parsed := ParseState(next);
      if !parsed { return false; }
      match io {
        case Lost => ok := false;
        case Ambiguous =>
          disk := disk + {next};
          assert View().disk == old(View()).disk + {ImageOf(next)};
          ok := false;
        case Durable =>
          disk := {next};
          entries := next;
          assert View().disk == {ImageOf(next)};
          ok := true;
      }
    }

    /** Replaces one entry by the outcome of a change. */
    method Replace(index: nat, e: Entry, io: W.Io) returns (ok: bool)
      requires Valid() && index < |entries| && Grows(entries[index], e)
      modifies this
      ensures Valid()
      ensures View() == W.Write(old(View()), Identifier(e), Some(e), io, None, None)
      ensures ok == (ValidEntry(e) && io == W.Durable)
      ensures entries == if ok then old(entries)[index := e] else old(entries)
    {
      hide ImageOf, ValidEntry;
      ImageOfChange(entries, index, e);
      assert ValidEntry(e) ==> Parses(entries[index := e]);
      assert !ValidEntry(e) ==> !Parses(entries[index := e]) by { assert entries[index := e][index] == e; }
      ok := Update(entries[index := e], io);
    }

    // ----- receipts -----

    /** The first half of receiving: a retained receipt answers alone. */
    method Retained(command: Command) returns (reply: Receipt)
      requires Valid()
      ensures reply == if command.environmentId != environmentId then Conflict
                       else if command.commandId !in Memory() then Missing
                       else if SameCommand(Memory()[command.commandId].command, command) then
                           Held(Memory()[command.commandId])
                       else Conflict
    {
      if command.environmentId != environmentId { return Conflict; }
      var index := Find(command.commandId);
      if index < 0 { return Missing; }
      reply := if SameCommand(entries[index].command, command) then Held(entries[index]) else Conflict;
    }

    /** The second half, queued behind other writes: the receipt may exist by now. */
    method Receive(command: Command, path: string, io: W.Io) returns (ok: bool)
      requires Valid() && command.environmentId == environmentId && PositiveLifetime(command)
      modifies this
      ensures Valid() && NothingRewritten(old(Memory()), Memory())
      ensures var (id, h) := (command.commandId, old(View()));
              if id in old(Memory()) then
                var e := old(Memory())[id];
                if !SameCommand(e.command, command) || e.canonicalPath != path then !ok && unchanged(this)
                else View() == W.Store(h, h.memory, io) && ok == (io == W.Durable)
              else if path == "" || path[0] != '/' then !ok && unchanged(this)
              else
                && View() == W.Store(h, h.memory[id := J.Receipt(command, agentId, path)], io)
                && ok == (io == W.Durable)
    {
      hide ImageOf, ValidEntry;
      var index := Find(command.commandId);
      if index >= 0 {
        var existing := entries[index];
        if !SameCommand(existing.command, command) || existing.canonicalPath != path { return false; }
        ok := Update(entries, io);
      } else {
        var e := J.Receipt(command, agentId, path);
        ReceiptValidity(command, agentId, path);
        ImageOfAppend(entries, e);
        assert ValidEntry(e) ==> Parses(entries + [e]);
        assert !ValidEntry(e) ==> !Parses(entries + [e]) by { assert (entries + [e])[|entries|] == e; }
        ok := Update(entries + [e], io);
      }
    }

    // ----- changes to one entry -----

    method RecordClaim(id: Uuid, record: Record, io: W.Io) returns (ok: bool)
      requires Valid()
      modifies this
      ensures Valid() && NothingRewritten(old(Memory()), Memory())
      ensures if id !in old(Memory()) then !ok && unchanged(this)
              else
                var change := J.RecordClaim(old(Memory())[id], record);
                View() == W.Write(old(View()), id, change, io, None, None) && ok == Written(change, io)
    {
      hide ImageOf, ValidEntry, ValidRecord;
      var index := Find(id);
      NoRuns(View(), id);
      if index < 0 || !ValidRecord(record) { return false; }
      var entry := entries[index];
      if !SameCommand(entry.command, record.command)
         || (record.owner.Some? && record.owner.value.agentId != entry.agentId) { return false; }
      if entry.claim.Some? && entry.claim.value.claimedAt.Some? && entry.claim.value.claimedAt != record.claimedAt {
        return false;
      }
      RecordClaimGrows(entry, record);
      entry := entry.(claim := Some(record));
      ok := Replace(index, entry, io);
    }

    /** `started` is false for every replay, even before the actual invocation. */
    method BeginEffect(id: Uuid, at: int, io: W.Io) returns (ok: bool, started: bool)
      requires Valid()
      modifies this
      ensures Valid() && NothingRewritten(old(Memory()), Memory())
      ensures if id !in old(Memory()) then !ok && unchanged(this)
              else
                var change := J.BeginEffect(old(Memory())[id], at);
                var entry := if change.Some? then Some(change.value.0) else None;
                && View() == W.Write(old(View()), id, entry, io, None, None) && ok == Written(entry, io)
                && (ok ==> started == change.value.1)
      ensures !ok ==> !started
    {
      hide ImageOf, ValidEntry;
      var index := Find(id);
      NoRuns(View(), id);
      if index < 0 { return false, false; }
      var entry := entries[index];
      started := false;
      if entry.effectStartedAt.None? && entry.result.None? {
        if entry.claim.None? || entry.claim.value.state != Executing { return false, false; }
        entry := entry.(effectStartedAt := Some(at));
        started := true;
      }
      BeginEffectGrows(entries[index], at);
      ok := Replace(index, entry, io);
      started := started && ok;
    }

    method PersistStopTarget(id: Uuid, target: StopTarget, io: W.Io) returns (ok: bool)
      requires Valid()
      modifies this
      ensures Valid() && NothingRewritten(old(Memory()), Memory())
      ensures if id !in old(Memory()) then !ok && unchanged(this)
              else
                var change := J.PersistStopTarget(old(Memory())[id], target);
                View() == W.Write(old(View()), id, change, io, None, None) && ok == Written(change, io)
    {
      hide ImageOf, ValidEntry;
      var index := Find(id);
      NoRuns(View(), id);
      if index < 0 { return false; }
      var entry := entries[index];
      if entry.command.operation != Stop || entry.effectStartedAt.None? || target.canonicalPath != entry.canonicalPath {
        return false;
      }
      if entry.stopTarget.Some? && entry.stopTarget.value != target { return false; }
      PersistStopTargetGrows(entry, target);
      entry := entry.(stopTarget := Some(target));
      ok := Replace(index, entry, io);
    }

    method SaveResult(id: Uuid, result: CommandResult, io: W.Io) returns (ok: bool)
      requires Valid()
      modifies this
      ensures Valid() && NothingRewritten(old(Memory()), Memory())
      ensures if id !in old(Memory()) then !ok && unchanged(this)
              else
                var change := J.SaveResult(old(Memory())[id], result);
                View() == W.Write(old(View()), id, change, io, None, None) && ok == Written(change, io)
    {
      hide ImageOf, ValidEntry;
      var index := Find(id);
      NoRuns(View(), id);
      if index < 0 || !Reportable(result.state) { return false; }
      var entry := entries[index];
      if result.commandId != id || !J.Claimed(entry) { return false; }
      if entry.result.Some? && entry.result.value != result {
        if entry.result.value.state != Unknown || result.state == Unknown { return false; }
        entry := entry.(acknowledged := false, acknowledgedAt := None);
      }
      SaveResultGrows(entries[index], result);
      entry := entry.(result := Some(result));
      ok := Replace(index, entry, io);
    }

    method Acknowledge(id: Uuid, at: int, io: W.Io) returns (ok: bool)
      requires Valid()
      modifies this
      ensures Valid() && NothingRewritten(old(Memory()), Memory())
      ensures if id !in old(Memory()) then !ok && unchanged(this)
              else
                var change := J.Acknowledge(old(Memory())[id], at);
                View() == W.Write(old(View()), id, change, io, None, None) && ok == Written(change, io)
    {
      hide ImageOf, ValidEntry;
      var index := Find(id);
      NoRuns(View(), id);
      if index < 0 { return false; }
      var entry := entries[index];
      if entry.result.None? { return false; }
      AcknowledgeGrows(entry, at);
      entry := entry.(acknowledged := true);
      if entry.acknowledgedAt.None? { entry := entry.(acknowledgedAt := Some(at)); }
      ok := Replace(index, entry, io);
    }

    method Retire(id: Uuid, at: int, io: W.Io) returns (ok: bool)
      requires Valid()
      modifies this
      ensures Valid() && NothingRewritten(old(Memory()), Memory())
      ensures if id !in old(Memory()) then !ok && unchanged(this)
              else
                var change := Some(J.Retire(old(Memory())[id], at));
                View() == W.Write(old(View()), id, change, io, None, None) && ok == Written(change, io)
    {
      hide ImageOf, ValidEntry;
      var index := Find(id);
      if index < 0 { return false; }
      var entry := entries[index];
      RetireGrows(entry, at);
      if entry.retiredAt.None? { entry := entry.(retiredAt := Some(at)); }
      ok := Replace(index, entry, io);
    }

    // ----- pruning -----

    /** Walks the entries backwards and splices out what was completed by the cutoff. */
    method Prune(now: int, io: W.Io) returns (ok: bool)
      requires Valid()
      modifies this
      ensures Valid() && ok == (io == W.Durable)
      ensures View() == W.Store(old(View()), J.Pruned(old(Memory()), now - JOURNAL_RETENTION_MS), io)
    {
      hide ImageOf, ValidEntry, Prunable;
      var cutoff := now - JOURNAL_RETENTION_MS;
      var next := entries;
      var index := |entries|;
      while index > 0
        invariant 0 <= index <= |entries| && next == entries[..index] + Retaining(entries[index..], cutoff)
      {
        index := index - 1;
        var entry := next[index];
        assert entries[index..] == [entry] + entries[index + 1..];
        if Prunable(entry, cutoff) { next := next[..index] + next[index + 1..]; }
      }
      assert entries[0..] == entries;
      assert next == Retaining(entries, cutoff);
      RetainingParses(entries, cutoff, agentId, environmentId);
      RetainingImage(entries, cutoff);
      ok := Update(next, io);
    }
  }
}
