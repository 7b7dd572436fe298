/** What every ledger operation, and so every run of the ledger, keeps. */
module LedgerProofs {
  import opened Prelude
  import opened Wire
  import opened Ledger
  import Json
  import JsonCanonical

  // ----- how one row may change -----

  predicate Reaches(s: State, t: State) {
    match s
    case Accepted => true
    case Executing => t != Accepted && t != Expired
    case Unknown => Reportable(t)
    case _ => s == t
  }

  /** Everything a later version of a row keeps of an earlier one. */
  predicate Evolves(r: Record, s: Record) {
    && r.command == s.command
    && Reaches(r.state, s.state)
    && (r.claimedAt.Some? ==> s.claimedAt == r.claimedAt)
    && (r.owner.Some? ==> s.owner.Some? && s.owner.value.agentId == r.owner.value.agentId)
    && (Terminal(r.state) ==>
          s.evidence == r.evidence && s.diagnostic == r.diagnostic && s.completedAt == r.completedAt)
    && (r.closure.Some? ==> s.state == Unknown && s.closure == r.closure)
  }

  lemma EvolvesTransitive(r: Record, s: Record, t: Record)
    requires Evolves(r, s) && Evolves(s, t)
    ensures Evolves(r, t)
  {
  }

  // ----- the invariants -----

  ghost predicate Valid(l: Ledger) {
    forall id :: id in l.rows ==> ValidRecord(l.rows[id]) && l.rows[id].command.commandId == id
  }

  /** At most one command holds the slot of a project. */
  ghost predicate Fence(l: Ledger) {
    forall i, j | i in l.rows && j in l.rows && Active(l.rows[i]) && Active(l.rows[j]) ::
      l.rows[i].command.projectId == l.rows[j].command.projectId ==> i == j
  }

  ghost predicate Capacity(l: Ledger) {
    forall environmentId :: |ActiveIn(l, environmentId)| <= ACTIVE_COMMANDS_PER_AGENT
  }

  ghost predicate UniqueKeys(l: Ledger) {
    forall i, j | i in l.rows && j in l.rows ::
      l.rows[i].command.idempotencyKey == l.rows[j].command.idempotencyKey ==> i == j
  }

  ghost predicate WellBehaved(l: Ledger) {
    Valid(l) && Fence(l) && Capacity(l) && UniqueKeys(l)
  }

  /** Rows evolve and none is added. */
  ghost predicate Shrinks(l: Ledger, m: Ledger) {
    && m.rows.Keys <= l.rows.Keys
    && forall id :: id in m.rows ==> Evolves(l.rows[id], m.rows[id])
  }

  lemma NoReactivation(r: Record, s: Record)
    requires Evolves(r, s) && Active(s)
    ensures Active(r)
  {
  }

  lemma SubsetSize(a: set<Uuid>, b: set<Uuid>)
    requires a <= b
    ensures |a| <= |b|
  {
    if a != b {
      assert |b - a| + |a| == |b|;
    }
  }

  /** No operation but an admitted submission can occupy a slot. */
  lemma ShrinkingKeepsSlots(l: Ledger, m: Ledger)
    requires Shrinks(l, m)
    ensures Fence(l) ==> Fence(m)
    ensures Capacity(l) ==> Capacity(m)
    ensures UniqueKeys(l) ==> UniqueKeys(m)
  {
    forall id | id in m.rows && Active(m.rows[id]) ensures Active(l.rows[id]) {
      NoReactivation(l.rows[id], m.rows[id]);
    }
    forall environmentId ensures |ActiveIn(m, environmentId)| <= |ActiveIn(l, environmentId)| {
      SubsetSize(ActiveIn(m, environmentId), ActiveIn(l, environmentId));
    }
  }

  // ----- each operation -----

  lemma ExpireEvolves(r: Record, now: int)
    requires ValidRecord(r)
    ensures Evolves(r, Expire(r, now)) && ValidRecord(Expire(r, now))
  {
  }

  lemma ExpireRowShrinks(l: Ledger, id: Uuid, now: int)
    requires Valid(l) && id in l.rows
    ensures Valid(ExpireRow(l, id, now)) && Shrinks(l, ExpireRow(l, id, now))
    ensures ExpireRow(l, id, now).rows[id] == Expire(l.rows[id], now)
  {
    ExpireEvolves(l.rows[id], now);
  }

  lemma RecoverShrinks(l: Ledger, now: int)
    requires Valid(l)
    ensures Valid(Recover(l, now)) && Shrinks(l, Recover(l, now)) && Recover(l, now).rows.Keys == l.rows.Keys
  {
    forall id | id in l.rows
      ensures Evolves(l.rows[id], Expire(l.rows[id], now)) && ValidRecord(Expire(l.rows[id], now))
    {
      ExpireEvolves(l.rows[id], now);
    }
  }

  lemma StoreShrinks(l: Ledger, r: Record, operation: AuditOperation, at: int)
    requires Valid(l) && r.command.commandId in l.rows && ValidRecord(r) && Evolves(l.rows[r.command.commandId], r)
    ensures Valid(Store(l, r, operation, at)) && Shrinks(l, Store(l, r, operation, at))
  {
  }

  lemma ShrinksTransitive(l: Ledger, m: Ledger, n: Ledger)
    requires Shrinks(l, m) && Shrinks(m, n)
    ensures Shrinks(l, n)
  {
    forall id | id in n.rows ensures Evolves(l.rows[id], n.rows[id]) {
      EvolvesTransitive(l.rows[id], m.rows[id], n.rows[id]);
    }
  }

  lemma InvalidateShrinks(l: Ledger, ids: set<Uuid>, now: int)
    requires Valid(l)
    ensures Valid(Invalidate(l, ids, now)) && Shrinks(l, Invalidate(l, ids, now))
    ensures Invalidate(l, ids, now).rows.Keys == l.rows.Keys
  {
  }

  lemma CloseShrinks(l: Ledger, id: Uuid, reason: string, now: int)
    requires Valid(l)
    ensures Valid(Close(l, id, reason, now).0) && Shrinks(l, Close(l, id, reason, now).0)
    ensures Close(l, id, reason, now).0.rows.Keys == l.rows.Keys
  {
    hide ExpireRow;
    StaysItself(l);
    if id in l.rows {
      var m := ExpireRow(l, id, now);
      ExpireRowShrinks(l, id, now);
      var r := Expire(l.rows[id], now);
      if reason != "" && r.state == Unknown && r.closure.None? {
        var closed := r.(closure := Some(Closure(now, reason)));
        ExpireKeepsKeys(l, id, now);
        StoreShrinks(m, closed, ClosedUnresolved, now);
        ShrinksTransitive(l, m, Store(m, closed, ClosedUnresolved, now));
      }
    }
  }

  lemma PruneShrinks(l: Ledger, now: int)
    requires Valid(l)
    ensures Valid(Prune(l, now)) && Shrinks(l, Prune(l, now))
    ensures forall id :: id in l.rows && id !in Prune(l, now).rows ==>
              Settled(Recover(l, now).rows[id].state) && !Active(Recover(l, now).rows[id])
    ensures forall id :: id in Prune(l, now).rows ==> Prune(l, now).rows[id] == Recover(l, now).rows[id]
  {
    RecoverShrinks(l, now);
  }

  /** What a claim grants, row by row. */
  lemma ClaimEvolves(r: Record, who: Identity, seen: int, stamp: int)
    requires ValidRecord(r) && r.owner.None? && Expire(r, seen).state != Expired
    ensures Evolves(r, Expire(r, seen).(state := Executing, claimedAt := Some(stamp),
                                        owner := Some(Owner(who.agentId, who.sessionId))))
  {
  }

  lemma ClaimShrinks(l: Ledger, who: Identity, id: Uuid, verified: bool, target: Option<Target>, seen: int, stamp: int)
    requires Valid(l)
    ensures var m := Claim(l, who, id, verified, target, seen, stamp);
            Valid(m.0) && Shrinks(l, m.0) && m.0.rows.Keys == l.rows.Keys
  {
    hide ExpireRow, Expire, ValidRecord, Evolves;
    StaysItself(l);
    if id in l.rows {
      var r := l.rows[id];
      ExpireRowShrinks(l, id, seen);
      ExpireKeepsKeys(l, id, seen);
      if r.owner.None? && Expire(r, seen).state != Expired {
        ClaimEvolves(r, who, seen, stamp);
        var claimed := Expire(r, seen).(state := Executing, claimedAt := Some(stamp),
                                        owner := Some(Owner(who.agentId, who.sessionId)));
        assert claimed.command.commandId == id by { ExpireKeepsCommand(r, seen); }
        if ValidRecord(claimed) { StoreShrinks(l, claimed, Claimed, stamp); }
      }
    }
  }

  lemma ExpireKeepsCommand(r: Record, now: int)
    ensures Expire(r, now).command == r.command
  {
  }

  lemma ExpireKeepsKeys(l: Ledger, id: Uuid, now: int)
    requires id in l.rows
    ensures ExpireRow(l, id, now).rows.Keys == l.rows.Keys
  {
  }

  lemma StaysItself(l: Ledger)
    requires Valid(l)
    ensures Shrinks(l, l)
  {
  }

  lemma WithResultEvolves(r: Record, result: CommandResult, now: int)
    requires ValidRecord(r) && r.owner.Some? && r.closure.None? && !Terminal(r.state) && Reportable(result.state)
    ensures Evolves(r, WithResult(r, result, now))
  {
    hide Json.Normal;
  }

  lemma PublishShrinks(l: Ledger, who: Identity, result: CommandResult, verified: bool, now: int)
    requires Valid(l) && Reportable(result.state)
    ensures var m := Publish(l, who, result, verified, now);
            Valid(m.0) && Shrinks(l, m.0) && m.0.rows.Keys == l.rows.Keys
  {
    hide Json.Normal, Json.Print, ValidRecord, Evolves, Reports;
    StaysItself(l);
    if result.commandId in l.rows {
      var r := l.rows[result.commandId];
      if Owns(r, who) && r.closure.None? && !Terminal(r.state) {
        WithResultEvolves(r, result, now);
        if ValidRecord(WithResult(r, result, now)) {
          StoreShrinks(l, WithResult(r, result, now), ResultRecorded, now);
        }
      }
    }
  }

  lemma TransferEvolves(r: Record, who: Identity)
    requires ValidRecord(r) && r.owner.Some? && r.owner.value.agentId == who.agentId
    ensures var moved := r.(owner := Some(Owner(who.agentId, who.sessionId)),
                            state := if r.state == Executing then Unknown else r.state);
            Evolves(r, moved) && ValidRecord(moved)
  {
  }

  lemma TransferShrinks(l: Ledger, who: Identity, id: Uuid, verified: bool, now: int)
    requires Valid(l)
    ensures var m := Transfer(l, who, id, verified, now);
            Valid(m.0) && Shrinks(l, m.0) && m.0.rows.Keys == l.rows.Keys
  {
    hide ExpireRow, Expire, ValidRecord, Evolves;
    StaysItself(l);
    if id in l.rows {
      var r := l.rows[id];
      ExpireRowShrinks(l, id, now);
      ExpireKeepsKeys(l, id, now);
      if r.owner.Some? && r.owner.value.agentId == who.agentId {
        TransferEvolves(r, who);
        StoreShrinks(l, r.(owner := Some(Owner(who.agentId, who.sessionId)),
                           state := if r.state == Executing then Unknown else r.state), Transferred, now);
      }
    }
  }

  // ----- submission -----

  /** An admitted submission stores one new accepted row in a ledger that refused nothing. */
  ghost predicate Admits(l: Ledger, projectId: Uuid, key: string, operation: Operation, peers: Peers, now: int) {
    var recovered := Recover(l, now);
    && WithKey(l, key) == {}
    && TargetRefusal(peers, operation).None?
    && ActiveFor(recovered, projectId) == {}
    && |ActiveIn(recovered, peers.target.value.environmentId)| < ACTIVE_COMMANDS_PER_AGENT
  }

  lemma SubmitCases(l: Ledger, id: Uuid, projectId: Uuid, key: string, operation: Operation, peers: Peers, now: int)
    requires id !in l.rows
    ensures var (m, reply) := Submit(l, id, projectId, key, operation, peers, now);
            if Admits(l, projectId, key, operation, peers, now) then
              && reply == Ok(id)
              && m == Store(Recover(l, now), NewRecord(id, projectId, key, operation, peers.target.value, now),
                            Submitted, now)
            else m == l
  {
  }

  lemma NewRecordIsValid(id: Uuid, projectId: Uuid, key: string, operation: Operation, t: Target, now: int)
    ensures ValidRecord(NewRecord(id, projectId, key, operation, t, now))
  {
  }

  lemma SubmitKeeps(l: Ledger, id: Uuid, projectId: Uuid, key: string, operation: Operation, peers: Peers, now: int)
    requires WellBehaved(l) && id !in l.rows
    ensures WellBehaved(Submit(l, id, projectId, key, operation, peers, now).0)
  {
    SubmitCases(l, id, projectId, key, operation, peers, now);
    if Admits(l, projectId, key, operation, peers, now) {
      var recovered := Recover(l, now);
      RecoverShrinks(l, now);
      ShrinkingKeepsSlots(l, recovered);
      var r := NewRecord(id, projectId, key, operation, peers.target.value, now);
      NewRecordIsValid(id, projectId, key, operation, peers.target.value, now);
      RecoverKeepsKeys(l, key, now);
      StoreNewKeeps(recovered, r, now);
    }
  }

  lemma RecoverKeepsKeys(l: Ledger, key: string, now: int)
    ensures WithKey(Recover(l, now), key) == WithKey(l, key)
  {
  }

  lemma StoreNewKeepsFence(l: Ledger, r: Record, now: int)
    requires Fence(l) && r.command.commandId !in l.rows && ActiveFor(l, r.command.projectId) == {}
    ensures Fence(Store(l, r, Submitted, now))
  {
    hide Active;
    forall i | i in l.rows && Active(l.rows[i]) ensures l.rows[i].command.projectId != r.command.projectId {
      assert i !in ActiveFor(l, r.command.projectId);
    }
  }

  lemma StoreNewKeepsKeys(l: Ledger, r: Record, now: int)
    requires UniqueKeys(l) && r.command.commandId !in l.rows && WithKey(l, r.command.idempotencyKey) == {}
    ensures UniqueKeys(Store(l, r, Submitted, now))
  {
    forall i | i in l.rows ensures l.rows[i].command.idempotencyKey != r.command.idempotencyKey {
      assert i !in WithKey(l, r.command.idempotencyKey);
    }
  }

  lemma StoreNewKeepsCapacity(l: Ledger, r: Record, now: int)
    requires Capacity(l) && r.command.commandId !in l.rows
    requires |ActiveIn(l, r.command.environmentId)| < ACTIVE_COMMANDS_PER_AGENT
    ensures Capacity(Store(l, r, Submitted, now))
  {
    hide Active;
    var id := r.command.commandId;
    var m := Store(l, r, Submitted, now);
    forall environmentId ensures |ActiveIn(m, environmentId)| <= ACTIVE_COMMANDS_PER_AGENT {
      var before := ActiveIn(l, environmentId);
      assert ActiveIn(m, environmentId) <= before + {id};
      SubsetSize(ActiveIn(m, environmentId), before + {id});
      if environmentId != r.command.environmentId {
        assert ActiveIn(m, environmentId) == before;
      }
    }
  }

  lemma StoreNewKeeps(l: Ledger, r: Record, now: int)
    requires WellBehaved(l)
    requires ValidRecord(r) && r.command.commandId !in l.rows
    requires WithKey(l, r.command.idempotencyKey) == {} && ActiveFor(l, r.command.projectId) == {}
    requires |ActiveIn(l, r.command.environmentId)| < ACTIVE_COMMANDS_PER_AGENT
    ensures WellBehaved(Store(l, r, Submitted, now))
  {
    hide Fence, UniqueKeys, Capacity, ValidRecord;
    StoreNewKeepsFence(l, r, now);
    StoreNewKeepsKeys(l, r, now);
    StoreNewKeepsCapacity(l, r, now);
  }

  // ----- every run -----

  /** Results passed their schema, and a drawn identifier is new. */
  ghost predicate Admissible(l: Ledger, q: Request) {
    match q
    case DoSubmit(id, _, _, _, _, _) => id !in l.rows
    case DoPublish(_, result, _, _) => Reportable(result.state)
    case _ => true
  }

  /** Every operation but a submission only evolves or removes rows. */
  lemma NextShrinks(l: Ledger, q: Request)
    requires Valid(l) && Admissible(l, q) && !q.DoSubmit?
    ensures Valid(Next(l, q)) && Shrinks(l, Next(l, q))
    ensures !q.DoPrune? ==> Next(l, q).rows.Keys == l.rows.Keys
  {
    hide Get, Close, Recover, Invalidate, Prune, Claim, Publish, Transfer, ExpireRow;
    match q
    case DoGet(id, now) => GetShrinks(l, id, now);
    case DoClose(id, reason, now) => CloseShrinks(l, id, reason, now);
    case DoRecover(now) => RecoverShrinks(l, now);
    case DoInvalidateEnvironment(environmentId, now) =>
      InvalidateShrinks(l, (set id | id in l.rows && l.rows[id].command.environmentId == environmentId), now);
    case DoInvalidateProject(projectId, now) =>
      InvalidateShrinks(l, (set id | id in l.rows && l.rows[id].command.projectId == projectId), now);
    case DoPrune(now) => PruneShrinks(l, now);
    case DoClaim(who, id, verified, target, seen, stamp) => ClaimShrinks(l, who, id, verified, target, seen, stamp);
    case DoPublish(who, result, verified, now) => PublishShrinks(l, who, result, verified, now);
    case DoTransfer(who, id, verified, now) => TransferShrinks(l, who, id, verified, now);
  }

  lemma GetShrinks(l: Ledger, id: Uuid, now: int)
    requires Valid(l)
    ensures Valid(Get(l, id, now).0) && Shrinks(l, Get(l, id, now).0)
    ensures Get(l, id, now).0.rows.Keys == l.rows.Keys
  {
    StaysItself(l);
    if id in l.rows { ExpireRowShrinks(l, id, now); }
  }

  lemma NextKeeps(l: Ledger, q: Request)
    requires WellBehaved(l) && Admissible(l, q)
    ensures WellBehaved(Next(l, q))
  {
    match q
    case DoSubmit(id, projectId, key, operation, peers, now) =>
      SubmitKeeps(l, id, projectId, key, operation, peers, now);
    case _ =>
      NextShrinks(l, q);
      ShrinkingKeepsSlots(l, Next(l, q));
  }

  ghost predicate AdmissibleRun(requests: seq<Request>) {
    forall k :: 0 <= k < |requests| ==> Admissible(Run(requests[..k]), requests[k])
  }

  /** In every reachable ledger each project has at most one active command, each
      environment at most four, and keys and rows stay valid. */
  lemma {:induction false} RunKeeps(requests: seq<Request>)
    requires AdmissibleRun(requests)
    ensures WellBehaved(Run(requests))
  {
    if requests != [] {
      var n := |requests| - 1;
      forall k | 0 <= k < n ensures Admissible(Run(requests[..n][..k]), requests[..n][k]) {
        assert requests[..n][..k] == requests[..k];
      }
      RunKeeps(requests[..n]);
      NextKeeps(Run(requests[..n]), requests[n]);
    } else {
      assert forall environmentId :: ActiveIn(EMPTY, environmentId) == {};
    }
  }

  // ----- what an answer tells its caller -----

  /** A granted or replayed claim names its caller as owner and never shows an unclaimed row. */
  lemma ClaimAnswers(l: Ledger, who: Identity, id: Uuid, verified: bool, target: Option<Target>, seen: int, stamp: int)
    requires Valid(l)
    ensures var (m, reply) := Claim(l, who, id, verified, target, seen, stamp);
            && (reply.Ok? ==> id in m.rows && m.rows[id] == reply.value && Owns(reply.value, who)
                              && reply.value.state != Accepted && reply.value.state != Expired)
            && (reply == Err(CommandExpired) ==> id in m.rows && m.rows[id].state == Expired)
            && (reply.Err? && reply != Err(CommandExpired) ==> m == l)
  {
    if id in l.rows { ExpireRowShrinks(l, id, seen); }
  }

  /** An acknowledged result is the stored outcome, whatever was stored before. */
  lemma PublishAnswers(l: Ledger, who: Identity, result: CommandResult, verified: bool, now: int)
    requires Valid(l)
    ensures var (m, reply) := Publish(l, who, result, verified, now);
            && (reply.Ok? ==> result.commandId in m.rows && Owns(m.rows[result.commandId], who)
                              && Reports(m.rows[result.commandId], result))
            && (reply.Err? ==> m == l)
  {
    hide Json.Print, Json.Normal;
    JsonCanonical.PrintOfNormal(result.evidence);
  }

  /** Publishing again what the ledger already reports changes nothing. */
  lemma RepublishIsNoOp(l: Ledger, who: Identity, result: CommandResult, now: int, later: int)
    requires Valid(l)
    requires Publish(l, who, result, true, now).1.Ok?
    ensures var m := Publish(l, who, result, true, now).0;
            Publish(m, who, result, true, later) == (m, Ok(later))
  {
    hide Json.Print, Json.Normal;
    JsonCanonical.PrintOfNormal(result.evidence);
  }

  /** A settled outcome is final: a different result is refused, and nothing else rewrites it. */
  lemma OutcomeIsFinal(l: Ledger, q: Request, id: Uuid)
    requires Valid(l) && Admissible(l, q) && id in l.rows && Terminal(l.rows[id].state)
    ensures id in Next(l, q).rows ==>
              var (r, s) := (l.rows[id], Next(l, q).rows[id]);
              s.state == r.state && s.evidence == r.evidence && s.diagnostic == r.diagnostic
                && s.completedAt == r.completedAt
  {
    match q
    case DoSubmit(new_, projectId, key, operation, peers, now) =>
      SubmitCases(l, new_, projectId, key, operation, peers, now);
    case _ => NextShrinks(l, q);
  }
}
