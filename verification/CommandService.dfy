/**
 The command service over its two tables. Every method is one transaction: it
 edits the tables step by step and restores them where the service rolls back.
 Each is proved to commit exactly what the ledger function of the same name says.
 */
module CommandService {
  import opened Prelude
  import opened Wire
  import D = LedgerDecisions
  import L = Ledger
  import P = LedgerProofs
  import Json
  import JsonRoundTrip
  import JsonCanonical

  /** A row of lifecycle_commands; evidence is canonical JSON text. */
  datatype Row = Row(
    command: Command, state: State, claimedAt: Option<int>, ownerAgentId: Option<Uuid>, ownerSessionId: Option<Uuid>,
    completedAt: Option<int>, evidence: Option<Json.Text>, diagnostic: Option<Diagnostic>,
    closedAt: Option<int>, closedReason: Option<string>)

  function ParsedEvidence(text: Json.Text): Json.Value {
    var parsed := JsonRoundTrip.ParseValue(text);
    if parsed.None? then Json.Null else parsed.value.0
  }

  /** Reading a row. */
  function RecordOf(row: Row): Record {
    Record(
      row.command, row.state, row.claimedAt,
      if row.claimedAt.Some? && row.ownerAgentId.Some? && row.ownerSessionId.Some?
        then Some(Owner(row.ownerAgentId.value, row.ownerSessionId.value)) else None,
      row.completedAt,
      if row.evidence.None? then None else Some(ParsedEvidence(row.evidence.value)),
      row.diagnostic,
      if row.closedAt.Some? && row.closedReason.Some? then Some(Closure(row.closedAt.value, row.closedReason.value))
      else None)
  }

  /** Writing a record. */
  function RowOf(r: Record): Row {
    Row(
      r.command, r.state, r.claimedAt,
      if r.owner.None? then None else Some(r.owner.value.agentId),
      if r.owner.None? then None else Some(r.owner.value.sessionId),
      r.completedAt,
      if r.evidence.None? then None else Some(Json.Print(r.evidence.value)),
      r.diagnostic,
      if r.closure.None? then None else Some(r.closure.value.closedAt),
      if r.closure.None? then None else Some(r.closure.value.reason))
  }

  /** Evidence that came from JSON text: well formed, and in the order its text has. */
  ghost predicate StoredEvidence(r: Record) {
    r.evidence.Some? ==> exists v :: Json.WellFormed(v) && r.evidence.value == Json.Normal(v)
  }

  /** A record survives being written and read back. */
  lemma RowRoundTrip(r: Record)
    requires ValidRecord(r) && StoredEvidence(r)
    ensures RecordOf(RowOf(r)) == r
  {
    hide Json.Print, Json.Normal, Json.WellFormed;
    if r.evidence.Some? {
      var v :| Json.WellFormed(v) && r.evidence.value == Json.Normal(v);
      JsonCanonical.PrintOfNormal(v);
      JsonCanonical.ParsePrint(v);
    }
  }

  /** New evidence is written as it came and reads back in normal form. */
  lemma ResultRoundTrip(r: Record, result: CommandResult, now: int)
    requires Json.WellFormed(result.evidence)
    requires ValidRecord(L.WithResult(r, result, now))
    ensures var written := L.WithResult(r, result, now).(evidence := Some(result.evidence));
            && ValidRecord(written) && RecordOf(RowOf(written)) == L.WithResult(r, result, now)
            && RowOf(written) == RowOf(L.WithResult(r, result, now))
    ensures StoredEvidence(L.WithResult(r, result, now))
  {
    hide Json.Print, Json.Normal, Json.WellFormed;
    JsonCanonical.ParsePrint(result.evidence);
    JsonCanonical.PrintOfNormal(result.evidence);
  }

  function Loaded(table: map<Uuid, Row>): map<Uuid, Record> {
    map id | id in table :: RecordOf(table[id])
  }

  /** The row reads as a valid record of this command, and would be written the same. */
  ghost predicate Readable(id: Uuid, row: Row) {
    var r := RecordOf(row);
    ValidRecord(r) && r.command.commandId == id && StoredEvidence(r) && RowOf(r) == row
  }

  /** The ledger after the expiry of some of its commands. */
  ghost function Recovering(l: L.Ledger, ids: set<Uuid>, now: int): L.Ledger {
    L.Ledger(
      map id | id in l.rows :: if id in ids then L.Expire(l.rows[id], now) else l.rows[id],
      l.audits + set id | id in l.rows && id in ids && L.Expire(l.rows[id], now) != l.rows[id] ::
                   L.ExpiryAudit(L.Expire(l.rows[id], now), now))
  }

  /** The ledger after the invalidation of some unclaimed commands. */
  lemma InvalidateOneMore(l: L.Ledger, ids: set<Uuid>, id: Uuid, now: int)
    requires P.Valid(l) && id in l.rows && id !in ids && l.rows[id].state == Accepted
    ensures id in L.Invalidate(l, ids, now).rows
    ensures var m := L.Invalidate(l, ids, now);
            m.rows[id] == l.rows[id] &&
            L.Store(m, l.rows[id].(state := Expired), L.Invalidated, now) == L.Invalidate(l, ids + {id}, now)
  {
    var m := L.Invalidate(l, ids, now);
    var n := L.Invalidate(l, ids + {id}, now);
    var one := L.Audit(id, L.Invalidated, now, Expired);
    forall a ensures a in n.audits <==> a in m.audits || a == one {
      assert a == one ==> a in n.audits by { assert l.rows[id].command.commandId == id; }
    }
    assert n.audits == m.audits + {one};
  }

  lemma RecoverOneMore(l: L.Ledger, ids: set<Uuid>, id: Uuid, now: int)
    requires P.Valid(l) && id in l.rows && id !in ids
    ensures id in Recovering(l, ids, now).rows
    ensures L.ExpireRow(Recovering(l, ids, now), id, now) == Recovering(l, ids + {id}, now)
  {
    var m := Recovering(l, ids, now);
    var n := Recovering(l, ids + {id}, now);
    var r := L.Expire(l.rows[id], now);
    if r != l.rows[id] {
      forall a ensures a in n.audits <==> a in m.audits || a == L.ExpiryAudit(r, now) {
      }
      assert n.audits == m.audits + {L.ExpiryAudit(r, now)};
    } else {
      assert n.audits == m.audits;
      assert n.rows == m.rows;
    }
  }

  lemma RecoveringKeys(l: L.Ledger, ids: set<Uuid>, now: int)
    ensures Recovering(l, ids, now).rows.Keys == l.rows.Keys
  {
  }

  lemma RecoveringNone(l: L.Ledger, now: int)
    ensures Recovering(l, {}, now) == l
  {
  }

  lemma RecoveringAll(l: L.Ledger, ids: set<Uuid>, now: int)
    requires forall id :: id in l.rows && id !in ids ==> L.Expire(l.rows[id], now) == l.rows[id]
    ensures Recovering(l, ids, now) == L.Recover(l, now)
  {
  }

  lemma InvalidateNone(l: L.Ledger, now: int)
    ensures L.Invalidate(l, {}, now) == l
  {
  }

  lemma ClosedIsValid(id: Uuid, row: Row, closure: Closure)
    requires Readable(id, row) && RecordOf(row).state == Unknown && closure.reason != ""
    ensures ValidRecord(RecordOf(row).(closure := Some(closure)))
  {
  }

  lemma ClosedStays(l: L.Ledger, id: Uuid, now: int)
    requires P.Valid(l) && id in l.rows && L.Expire(l.rows[id], now).closure.Some?
    ensures L.ExpireRow(l, id, now) == l
  {
  }

  predicate RowActive(row: Row) {
    row.state == Accepted || row.state == Executing || (row.state == Unknown && row.closedAt.None?)
  }

  predicate RowPastRetention(row: Row, cutoff: int) {
    || (Terminal(row.state) && row.completedAt.Some? && row.completedAt.value <= cutoff)
    || (row.state == Expired && row.command.expiresAt <= cutoff)
    || (row.state == Unknown && row.closedAt.Some? && row.closedAt.value <= cutoff)
  }

  function DiscardAudits(table: map<Uuid, Row>, audits: set<L.Audit>, cutoff: int): set<L.Audit> {
    set a | a in audits && (cutoff < a.at || (a.target in table && RowActive(table[a.target])))
  }

  function DiscardRows(table: map<Uuid, Row>, audits: set<L.Audit>, cutoff: int): map<Uuid, Row> {
    map id | id in table
      && !(RowPastRetention(table[id], cutoff) && !exists a :: a in audits && a.target == id && cutoff < a.at)
      :: table[id]
  }

  /** The table's conditions on a row are the ledger's on its record. */
  lemma RowConditions(id: Uuid, row: Row, cutoff: int)
    requires Readable(id, row)
    ensures RowActive(row) == Active(RecordOf(row))
    ensures RowPastRetention(row, cutoff) == L.PastRetention(RecordOf(row), cutoff)
  {
    hide Json.Print, ValidRecord;
  }

  lemma OnlyAccepted(l: L.Ledger, ids: set<Uuid>, all: set<Uuid>, now: int)
    requires forall id :: id in ids <==> id in all && id in l.rows && l.rows[id].state == Accepted
    ensures L.Invalidate(l, ids, now) == L.Invalidate(l, all, now)
  {
  }

  lemma NewRowReads(id: Uuid, projectId: Uuid, key: string, operation: Operation, t: L.Target, now: int)
    ensures var r := L.NewRecord(id, projectId, key, operation, t, now);
            ValidRecord(r) && Readable(id, RowOf(r)) && RecordOf(RowOf(r)) == r
  {
  }

  lemma Targeted(peers: L.Peers, operation: Operation)
    requires L.TargetRefusal(peers, operation).None?
    ensures peers.target.Some?
  {
  }

  // ----- how a submission ends -----

  lemma Resubmitted(
    l: L.Ledger, previous: Uuid, id: Uuid, projectId: Uuid, key: string, operation: Operation, peers: L.Peers, now: int)
    requires P.WellBehaved(l) && previous in l.rows && l.rows[previous].command.idempotencyKey == key
    ensures var c := l.rows[previous].command;
            L.Submit(l, id, projectId, key, operation, peers, now)
            == (l, if c.projectId != projectId || c.operation != operation then Err(IdempotencyConflict)
                   else Ok(previous))
  {
    hide P.Fence, P.Capacity, P.Valid, L.Recover, L.TargetRefusal;
    assert previous in L.WithKey(l, key);
  }

  ghost predicate SlotFree(l: L.Ledger, projectId: Uuid, environmentId: Uuid) {
    L.ActiveFor(l, projectId) == {} && |L.ActiveIn(l, environmentId)| < ACTIVE_COMMANDS_PER_AGENT
  }

  /** The command in the way decides the refusal; without one the environment is busy. */
  ghost predicate Refuses(l: L.Ledger, projectId: Uuid, environmentId: Uuid, code: ErrorCode) {
    && (L.ActiveFor(l, projectId) == {} ==> code == AgentBusy)
    && (forall blocking :: blocking in L.ActiveFor(l, projectId) ==>
          code == if l.rows[blocking].state == Unknown then UnresolvedCommand else CommandConflict)
  }

  lemma RecoveredFence(l: L.Ledger, now: int)
    requires P.WellBehaved(l)
    ensures P.Fence(L.Recover(l, now))
  {
    P.RecoverShrinks(l, now);
    P.ShrinkingKeepsSlots(l, L.Recover(l, now));
  }

  lemma Turned(
    l: L.Ledger, id: Uuid, projectId: Uuid, key: string, operation: Operation, peers: L.Peers, code: ErrorCode,
    now: int)
    requires L.WithKey(l, key) == {}
    requires var refusal := L.TargetRefusal(peers, operation);
             if refusal.Some? then refusal.value == code
             else
               && !SlotFree(L.Recover(l, now), projectId, peers.target.value.environmentId)
               && Refuses(L.Recover(l, now), projectId, peers.target.value.environmentId, code)
    ensures L.Submit(l, id, projectId, key, operation, peers, now) == (l, Err(code))
  {
    hide L.Recover, L.ActiveFor, L.ActiveIn;
  }

  lemma Admitted(l: L.Ledger, id: Uuid, projectId: Uuid, key: string, operation: Operation, peers: L.Peers, now: int)
    requires id !in l.rows && L.WithKey(l, key) == {} && L.TargetRefusal(peers, operation).None?
    requires SlotFree(L.Recover(l, now), projectId, peers.target.value.environmentId)
    ensures L.Submit(l, id, projectId, key, operation, peers, now)
            == (L.Store(L.Recover(l, now), L.NewRecord(id, projectId, key, operation, peers.target.value, now),
                        L.Submitted, now), Ok(id))
  {
    P.SubmitCases(l, id, projectId, key, operation, peers, now);
  }

  class CommandTables {
    var table: map<Uuid, Row>
    var audits: set<L.Audit>

    ghost predicate Reads()
      reads this
    {
      forall id :: id in table ==> Readable(id, table[id])
    }

    ghost predicate Valid()
      reads this
    {
      Reads() && P.WellBehaved(View())
    }

    ghost function View(): L.Ledger
      reads this
    {
      L.Ledger(Loaded(table), audits)
    }

    constructor ()
      ensures Valid() && View() == L.EMPTY
    {
      table, audits := map[], {};
      new;
      assert forall environmentId :: L.ActiveIn(View(), environmentId) == {};
    }

    // ----- the steps of a transaction -----

    /** The record is validated as a whole before it replaces its row. */
    method Save(r: Record) returns (saved: bool)
      requires Reads() && (ValidRecord(r) ==> Readable(r.command.commandId, RowOf(r)))
      modifies this`table
      ensures saved == ValidRecord(r)
      ensures table == if saved then old(table)[r.command.commandId := RowOf(r)] else old(table)
      ensures saved ==> Reads() && View().rows == old(View()).rows[r.command.commandId := RecordOf(RowOf(r))]
    {
      hide Readable, RecordOf, RowOf;
      saved := ValidRecord(r);
      if saved { table := table[r.command.commandId := RowOf(r)]; }
    }

    method WriteAudit(r: Record, operation: L.AuditOperation, at: int)
      modifies this`audits
      ensures audits == old(audits) + {L.Audit(r.command.commandId, operation, at, r.state)}
    {
      audits := audits + {L.Audit(r.command.commandId, operation, at, r.state)};
    }

    /** Saving and auditing come in pairs. */
    method SaveAudited(r: Record, operation: L.AuditOperation, at: int) returns (saved: bool)
      requires Reads() && (ValidRecord(r) ==> Readable(r.command.commandId, RowOf(r)))
      modifies this
      ensures saved == ValidRecord(r)
      ensures !saved ==> unchanged(this)
      ensures saved ==> Reads() && View() == L.Store(old(View()), RecordOf(RowOf(r)), operation, at)
      ensures saved ==> r.command.commandId in table && table[r.command.commandId] == RowOf(r)
    {
      hide ValidRecord, Readable;
      saved := Save(r);
      if saved { WriteAudit(r, operation, at); }
    }

    /** Expires an unclaimed command at its deadline; a claimed one becomes unknown at its timeout. */
    method ExpireCommand(id: Uuid, now: int) returns (current: Record)
      requires Reads() && id in table
      modifies this
      ensures Reads() && View() == L.ExpireRow(old(View()), id, now)
      ensures current == L.Expire(old(View()).rows[id], now)
      ensures id in table && RecordOf(table[id]) == current
    {
      var r := RecordOf(table[id]);
      assert View().rows[id] == r;
      current := r;
      if r.state == Accepted && r.command.expiresAt <= now {
        current := r.(state := Expired);
        RowRoundTrip(current);
        var saved := SaveAudited(current, L.ExpiryRecorded, now);
      } else if r.state == Executing && r.claimedAt.value + OBSERVATION_TIMEOUT_MS <= now {
        current := r.(state := Unknown, diagnostic := Some(L.TIMEOUT_DIAGNOSTIC));
        RowRoundTrip(current);
        var saved := SaveAudited(current, L.TimedOut, now);
      }
    }

    lemma Parts()
      requires Reads()
      ensures P.Valid(View()) && View().rows.Keys == table.Keys
      ensures forall id :: id in table ==>
              View().rows[id].state == table[id].state && View().rows[id].command == table[id].command
    {
    }

    lemma Conditions(cutoff: int)
      requires Reads()
      ensures View().rows.Keys == table.Keys
      ensures forall id :: id in table ==>
                && View().rows[id].command == table[id].command && View().rows[id].state == table[id].state
                && RowActive(table[id]) == Active(View().rows[id])
                && RowPastRetention(table[id], cutoff) == L.PastRetention(View().rows[id], cutoff)
    {
      hide Readable, RowActive, Active, RowPastRetention, L.PastRetention;
      forall id | id in table
        ensures RowActive(table[id]) == Active(View().rows[id])
        ensures RowPastRetention(table[id], cutoff) == L.PastRetention(View().rows[id], cutoff)
      {
        RowConditions(id, table[id], cutoff);
      }
    }

    lemma Discarded(cutoff: int)
      requires Reads()
      ensures var kept := DiscardAudits(table, audits, cutoff);
              && L.Ledger(Loaded(DiscardRows(table, kept, cutoff)), kept) == L.Discard(View(), cutoff)
              && forall id :: id in DiscardRows(table, kept, cutoff) ==>
                 Readable(id, DiscardRows(table, kept, cutoff)[id])
    {
      hide Readable, RecordOf, RowActive, Active, RowPastRetention, L.PastRetention;
      Conditions(cutoff);
      var kept := DiscardAudits(table, audits, cutoff);
      assert kept == L.Discard(View(), cutoff).audits;
    }

    method RecoverAll(now: int)
      requires Reads()
      modifies this
      ensures Reads() && View() == L.Recover(old(View()), now)
    {
      hide ValidRecord, Loaded, StoredEvidence, Readable, Reads, Recovering, L.Recover, L.ExpireRow;
      ghost var l := View();
      Parts();
      var pending := set id | id in table && (table[id].state == Accepted || table[id].state == Executing);
      ghost var done := {};
      RecoveringNone(l, now);
      while pending != {}
        invariant Reads() && View() == Recovering(l, done, now) && table.Keys == l.rows.Keys
        invariant pending <= l.rows.Keys && done <= l.rows.Keys && pending !! done
        invariant forall id :: id in l.rows && id !in pending && id !in done ==> L.Expire(l.rows[id], now) == l.rows[id]
        decreases |pending|
      {
        var id :| id in pending;
        pending := pending - {id};
        RecoverOneMore(l, done, id, now);
        var current := ExpireCommand(id, now);
        done := done + {id};
        RecoveringKeys(l, done, now);
        Parts();
      }
      RecoveringAll(l, done, now);
    }

    method InvalidateCommand(id: Uuid, now: int)
      requires Reads() && id in table && table[id].state == Accepted
      modifies this
      ensures Reads()
      ensures View() == L.Store(old(View()), old(View()).rows[id].(state := Expired), L.Invalidated, now)
    {
      var expired := RecordOf(table[id]).(state := Expired);
      assert View().rows[id] == RecordOf(table[id]);
      RowRoundTrip(expired);
      var saved := SaveAudited(expired, L.Invalidated, now);
    }

    method InvalidateAll(ids: set<Uuid>, now: int)
      requires Reads() && forall id :: id in ids ==> id in table && table[id].state == Accepted
      modifies this
      ensures Reads() && View() == L.Invalidate(old(View()), ids, now)
    {
      hide ValidRecord, Loaded, StoredEvidence, Readable, Reads, L.Invalidate, L.Store;
      ghost var l := View();
      Parts();
      var pending := ids;
      ghost var done := {};
      InvalidateNone(l, now);
      while pending != {}
        invariant Reads() && View() == L.Invalidate(l, done, now)
        invariant pending + done == ids && pending !! done
        decreases |pending|
      {
        var id :| id in pending;
        pending := pending - {id};
        InvalidateOneMore(l, done, id, now);
        Parts();
        InvalidateCommand(id, now);
        done := done + {id};
      }
      assert done == ids;
    }

    // ----- transactions -----

    method GetCommand(id: Uuid, now: int) returns (reply: Reply<Record>)
      requires Valid()
      modifies this
      ensures Valid() && (View(), reply) == L.Get(old(View()), id, now)
      ensures id !in old(View()).rows ==> reply == Err(NotFound) && View() == old(View())
      ensures id in old(View()).rows ==>
                && View().rows.Keys == old(View()).rows.Keys && reply == Ok(View().rows[id])
                && D.Judged(old(View()).rows[id], View().rows[id], now)
                && forall k :: k in old(View()).rows && k != id ==> View().rows[k] == old(View()).rows[k]
    {
      hide D.Judged, L.Expire;
      ghost var l := View();
      Parts();
      if id in l.rows { D.ReadingJudges(l, id, now); }
      if id !in table { return Err(NotFound); }
      var r := ExpireCommand(id, now);
      reply := Ok(r);
      P.NextKeeps(l, L.DoGet(id, now));
    }

    method RecoverCommands(now: int)
      requires Valid()
      modifies this
      ensures Valid() && View() == L.Recover(old(View()), now)
      ensures View().rows.Keys == old(View()).rows.Keys
      ensures forall id :: id in old(View()).rows ==> D.Judged(old(View()).rows[id], View().rows[id], now)
    {
      hide D.Judged, L.Expire;
      D.RecoveringJudges(View(), now);
      ghost var l := View();
      RecoverAll(now);
      P.NextKeeps(l, L.DoRecover(now));
    }

    /** The closing reason arrives trimmed. */
    method CloseUnresolved(id: Uuid, reason: string, now: int) returns (reply: Reply<Record>)
      requires Valid()
      modifies this
      ensures Valid() && (View(), reply) == L.Close(old(View()), id, reason, now)
    {
      hide L.ExpireRow, L.Expire, ValidRecord, P.WellBehaved, Readable, Loaded;
      ghost var l := View();
      Parts();
      if reason == "" { return Err(InvalidInput); }
      if id !in table { return Err(NotFound); }
      var before := (table, audits);
      var r := ExpireCommand(id, now);
      if r.state != Unknown {
        table, audits := before.0, before.1;
        return Err(CommandConflict);
      }
      if r.closure.Some? {
        if r.closure.value.reason != reason {
          table, audits := before.0, before.1;
          return Err(CommandConflict);
        }
        ClosedStays(l, id, now);
        reply := Ok(r);
      } else {
        var closed := r.(closure := Some(Closure(now, reason)));
        assert ValidRecord(closed) by { ClosedIsValid(id, table[id], Closure(now, reason)); }
        Rewritten(id, r, closed);
        var saved := SaveAudited(closed, L.ClosedUnresolved, now);
        reply := Ok(closed);
      }
      P.NextKeeps(l, L.DoClose(id, reason, now));
    }

    /** A record read from its row can be written back with the same evidence. */
    lemma Rewritten(id: Uuid, r: Record, s: Record)
      requires Reads() && id in table && RecordOf(table[id]) == r
      requires s.command == r.command && s.evidence == r.evidence
      ensures s.command.commandId == id
      ensures ValidRecord(s) ==> Readable(id, RowOf(s)) && RecordOf(RowOf(s)) == s
    {
      if ValidRecord(s) { RowRoundTrip(s); }
    }

    method InvalidateEnvironment(environmentId: Uuid, now: int)
      requires Valid()
      modifies this
      ensures Valid() && View() == L.InvalidateEnvironment(old(View()), environmentId, now)
    {
      hide P.WellBehaved, Readable, Loaded, L.Invalidate;
      ghost var l := View();
      Parts();
      var ids := set id | id in table && table[id].command.environmentId == environmentId
          && table[id].state == Accepted;
      InvalidateAll(ids, now);
      OnlyAccepted(l, ids, (set id | id in l.rows && l.rows[id].command.environmentId == environmentId), now);
      P.NextKeeps(l, L.DoInvalidateEnvironment(environmentId, now));
    }

    method InvalidateProject(projectId: Uuid, now: int)
      requires Valid()
      modifies this
      ensures Valid() && View() == L.InvalidateProject(old(View()), projectId, now)
    {
      hide P.WellBehaved, Readable, Loaded, L.Invalidate;
      ghost var l := View();
      Parts();
      var ids := set id | id in table && table[id].command.projectId == projectId && table[id].state == Accepted;
      InvalidateAll(ids, now);
      OnlyAccepted(l, ids, (set id | id in l.rows && l.rows[id].command.projectId == projectId), now);
      P.NextKeeps(l, L.DoInvalidateProject(projectId, now));
    }

    method Prune(now: int)
      requires Valid()
      modifies this
      ensures Valid() && View() == L.Prune(old(View()), now)
    {
      hide P.WellBehaved, L.Recover, L.Discard, Readable, RecordOf, DiscardRows, DiscardAudits;
      ghost var l := View();
      RecoverAll(now);
      Discarded(now - COMMAND_RETENTION_MS);
      audits := DiscardAudits(table, audits, now - COMMAND_RETENTION_MS);
      table := DiscardRows(table, audits, now - COMMAND_RETENTION_MS);
      P.NextKeeps(l, L.DoPrune(now));
    }

    /** Refuses a project whose slot is held or an environment at capacity. */
    method SlotRefusal(projectId: Uuid, environmentId: Uuid) returns (refusal: Option<ErrorCode>)
      requires Reads() && P.Fence(View())
      ensures refusal.None? <==> SlotFree(View(), projectId, environmentId)
      ensures refusal.Some? ==> Refuses(View(), projectId, environmentId, refusal.value)
    {
      hide Readable, RecordOf, Active, RowActive;
      Conditions(0);
      if blocking :| blocking in table && table[blocking].command.projectId == projectId && RowActive(table[blocking]) {
        assert blocking in L.ActiveFor(View(), projectId);
        return Some(if table[blocking].state == Unknown then UnresolvedCommand else CommandConflict);
      }
      var busy := set id | id in table && table[id].command.environmentId == environmentId && RowActive(table[id]);
      assert busy == L.ActiveIn(View(), environmentId);
      refusal := if |busy| >= ACTIVE_COMMANDS_PER_AGENT then Some(AgentBusy) else None;
    }

    /** `id` is the fresh identifier drawn for the command. */
    method SubmitCommand(id: Uuid, projectId: Uuid, key: string, operation: Operation, peers: L.Peers, now: int)
      returns (reply: Reply<Uuid>)
      requires Valid() && id !in table
      modifies this
      ensures Valid() && (View(), reply) == L.Submit(old(View()), id, projectId, key, operation, peers, now)
    {
      hide P.WellBehaved, L.Submit, L.Recover, L.Store, L.Expire, ValidRecord, Readable, RecordOf, L.TargetRefusal,
        SlotFree, Refuses;
      ghost var l := View();
      Parts();
      var before := (table, audits);
      if previous :| previous in table && table[previous].command.idempotencyKey == key {
        var c := table[previous].command;
        Resubmitted(l, previous, id, projectId, key, operation, peers, now);
        return if c.projectId != projectId || c.operation != operation then Err(IdempotencyConflict) else Ok(previous);
      }
      assert L.WithKey(l, key) == {};
      RecoverAll(now);
      RecoveredFence(l, now);
      var refusal := L.TargetRefusal(peers, operation);
      if refusal.None? {
        Targeted(peers, operation);
        refusal := SlotRefusal(projectId, peers.target.value.environmentId);
      }
      if refusal.Some? {
        Turned(l, id, projectId, key, operation, peers, refusal.value, now);
        table, audits := before.0, before.1;
        return Err(refusal.value);
      }
      var target := peers.target.value;
      var r := L.NewRecord(id, projectId, key, operation, target, now);
      NewRowReads(id, projectId, key, operation, target, now);
      var saved := SaveAudited(r, L.Submitted, now);
      Admitted(l, id, projectId, key, operation, peers, now);
      reply := Ok(id);
      P.NextKeeps(l, L.DoSubmit(id, projectId, key, operation, peers, now));
    }

    /** The clock is read to judge expiry and again to stamp the claim. */
    method Claim(who: Identity, id: Uuid, verified: bool, target: Option<L.Target>, seen: int, stamp: int)
      returns (reply: Reply<Record>)
      requires Valid()
      modifies this
      ensures Valid() && (View(), reply) == L.Claim(old(View()), who, id, verified, target, seen, stamp)
    {
      hide P.WellBehaved, Readable, Json.Print, Json.Normal;
      ghost var l := View();
      Parts();
      if !verified { return Err(Unauthenticated); }
      if id !in table { return Err(NotFound); }
      var before := (table, audits);
      var r := RecordOf(table[id]);
      if r.command.environmentId != who.environmentId { return Err(ClaimOwnerConflict); }
      if r.owner.Some? {
        if !L.Owns(r, who) { return Err(ClaimOwnerConflict); }
        var current := ExpireCommand(id, seen);
        reply := Ok(current);
      } else if r.command.sessionId != who.sessionId {
        return Err(ClaimOwnerConflict);
      } else {
        r := ExpireCommand(id, seen);
        if r.state == Expired {
          reply := Err(CommandExpired);
        } else if target.None? || !target.value.managed || target.value.environmentId != r.command.environmentId
                  || target.value.localProjectId != r.command.localProjectId {
          table, audits := before.0, before.1;
          return Err(ProjectUnmanaged);
        } else {
          var claimed :=
              r.(state := Executing, claimedAt := Some(stamp), owner := Some(Owner(who.agentId, who.sessionId)));
          Rewritten(id, r, claimed);
          var saved := SaveAudited(claimed, L.Claimed, stamp);
          if !saved {
            table, audits := before.0, before.1;
            return Err(SchemaViolation);
          }
          reply := Ok(claimed);
        }
      }
      P.NextKeeps(l, L.DoClaim(who, id, verified, target, seen, stamp));
    }

    /** The published result passed its schema. */
    method PublishResult(who: Identity, result: CommandResult, verified: bool, now: int) returns (reply: Reply<int>)
      requires Valid() && Reportable(result.state) && Json.WellFormed(result.evidence)
      modifies this
      ensures Valid() && (View(), reply) == L.Publish(old(View()), who, result, verified, now)
    {
      hide P.WellBehaved, L.Expire, L.Store, Json.Print, Json.Normal;
      ghost var l := View();
      Parts();
      var id := result.commandId;
      if !verified { return Err(Unauthenticated); }
      if id !in table { return Err(NotFound); }
      var r := RecordOf(table[id]);
      if !L.Owns(r, who) { return Err(ClaimOwnerConflict); }
      if r.closure.Some? { return Err(CommandConflict); }
      var same := r.state == result.state && r.evidence.Some?
                  && Json.Print(r.evidence.value) == Json.Print(result.evidence) && r.diagnostic == result.diagnostic;
      if Terminal(r.state) {
        if !same { return Err(CommandConflict); }
      } else if !same {
        var updated := r.(state := result.state, evidence := Some(result.evidence), diagnostic := result.diagnostic,
                          completedAt := if result.state != Unknown then Some(now) else r.completedAt);
        if ValidRecord(updated) { ResultRoundTrip(r, result, now); }
        var saved := SaveAudited(updated, L.ResultRecorded, now);
        if !saved { return Err(SchemaViolation); }
      }
      reply := Ok(now);
      P.NextKeeps(l, L.DoPublish(who, result, verified, now));
    }

    method TransferOwnership(who: Identity, id: Uuid, verified: bool, now: int) returns (reply: Reply<Record>)
      requires Valid()
      modifies this
      ensures Valid() && (View(), reply) == L.Transfer(old(View()), who, id, verified, now)
    {
      hide P.WellBehaved, Readable, L.Expire, L.Store, Json.Print, Json.Normal;
      ghost var l := View();
      Parts();
      if !verified { return Err(Unauthenticated); }
      if id !in table { return Err(NotFound); }
      var r := RecordOf(table[id]);
      if r.command.environmentId != who.environmentId || r.owner.None? || r.owner.value.agentId != who.agentId {
        return Err(ClaimOwnerConflict);
      }
      if r.owner.value.sessionId == who.sessionId {
        var current := ExpireCommand(id, now);
        reply := Ok(current);
      } else {
        var moved := r.(owner := Some(Owner(who.agentId, who.sessionId)));
        if r.state == Executing { moved := moved.(state := Unknown); }
        Rewritten(id, r, moved);
        var saved := SaveAudited(moved, L.Transferred, now);
        reply := Ok(moved);
      }
      P.NextKeeps(l, L.DoTransfer(who, id, verified, now));
    }
  }
}
