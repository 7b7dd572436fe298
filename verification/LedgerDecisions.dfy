/**
 What each operation of the ledger decides, told from the rows and the clock
 alone: who is refused and why, what a row becomes, and when.
 */
module LedgerDecisions {
  import opened Prelude
  import opened Wire
  import opened Ledger
  import opened LedgerProofs
  import opened LedgerClock
  import Json
  import JsonCanonical

  // ----- deadlines -----

  /** A row as the deadlines leave it: thirty seconds to be claimed, sixty to be reported. */
  ghost predicate Judged(r: Record, s: Record, now: int) {
    && (r.state == Accepted ==>
          s == if r.command.expiresAt <= now then r.(state := Expired) else r)
    && (r.state == Executing && r.claimedAt.Some? ==>
          s == if r.claimedAt.value + 60_000 <= now
               then r.(state := Unknown,
                       diagnostic :=
                         Some(Diagnostic(UnresolvedCommand, "Execution result not observed before timeout")))
               else r)
    && (r.state != Accepted && !(r.state == Executing && r.claimedAt.Some?) ==> s == r)
  }

  lemma ExpiryIsJudged(r: Record, now: int)
    ensures Judged(r, Expire(r, now), now)
    ensures forall s :: Judged(r, s, now) ==> s == Expire(r, now)
  {
  }

  /** Reading a command judges that one and no other; recovering judges all. */
  lemma ReadingJudges(l: Ledger, id: Uuid, now: int)
    requires id in l.rows && l.rows[id].command.commandId == id
    ensures var (m, reply) := Get(l, id, now);
            && m.rows.Keys == l.rows.Keys && Judged(l.rows[id], m.rows[id], now) && reply == Ok(m.rows[id])
            && forall k :: k in l.rows && k != id ==> m.rows[k] == l.rows[k]
  {
    ExpiryIsJudged(l.rows[id], now);
  }

  lemma RecoveringJudges(l: Ledger, now: int)
    ensures Recover(l, now).rows.Keys == l.rows.Keys
    ensures forall id :: id in l.rows ==> Judged(l.rows[id], Recover(l, now).rows[id], now)
  {
    hide Judged, Expire;
    forall id | id in l.rows ensures Judged(l.rows[id], Recover(l, now).rows[id], now) {
      ExpiryIsJudged(l.rows[id], now);
    }
  }

  // ----- submitting -----

  /** The row still holds the slot of its project once the deadlines were judged. */
  predicate HoldsSlot(r: Record, now: int) {
    || (r.state == Accepted && now < r.command.expiresAt)
    || r.state == Executing
    || (r.state == Unknown && r.closure.None?)
  }

  /** The target is there, enrolled, managed, supported, valid where it is to be started, and online under the
      credential now in force. */
  predicate Willing(peers: Peers, operation: Operation) {
    && peers.target.Some? && peers.enrolled && peers.target.value.managed && peers.target.value.supported
    && (operation == Start ==> peers.target.value.valid) && peers.target.value.online
    && peers.credential == Some(peers.target.value.agentId)
  }

  /** The first of these that holds is the answer. */
  predicate Unwilling(peers: Peers, operation: Operation, code: ErrorCode) {
    if peers.target.None? then code == NotFound
    else if !peers.enrolled then code == AccessRevoked
    else if !peers.target.value.managed then code == ProjectUnmanaged
    else if !peers.target.value.supported then code == UnsupportedProtocol
    else if operation == Start && !peers.target.value.valid then code == ProjectInvalid
    else if !peers.target.value.online then code == AgentOffline
    else code == AccessRevoked
  }

  function Holding(l: Ledger, environmentId: Uuid, now: int): set<Uuid> {
    set id | id in l.rows && HoldsSlot(l.rows[id], now) && l.rows[id].command.environmentId == environmentId
  }

  lemma StillActive(r: Record, now: int)
    requires ValidRecord(r)
    ensures Active(Expire(r, now)) <==> HoldsSlot(r, now)
    ensures Expire(r, now).command == r.command
    ensures Active(Expire(r, now)) && Expire(r, now).state == Unknown <==>
              HoldsSlot(r, now) && (r.state == Unknown || (r.state == Executing && r.claimedAt.value + 60_000 <= now))
  {
  }

  lemma HoldingIsActive(l: Ledger, environmentId: Uuid, now: int)
    requires Valid(l)
    ensures ActiveIn(Recover(l, now), environmentId) == Holding(l, environmentId, now)
    ensures forall projectId, id :: id in ActiveFor(Recover(l, now), projectId) <==>
              id in l.rows && HoldsSlot(l.rows[id], now) && l.rows[id].command.projectId == projectId
  {
    hide ValidRecord, Active, HoldsSlot, Expire;
    forall id | id in l.rows
      ensures Active(Recover(l, now).rows[id]) <==> HoldsSlot(l.rows[id], now)
      ensures Recover(l, now).rows[id].command == l.rows[id].command
    {
      StillActive(l.rows[id], now);
    }
  }

  /** A new command is accepted if and only if its target is willing, its project's slot is free and its environment
      holds fewer than four; it then has thirty seconds to be claimed. */
  lemma SubmissionDecided(
    l: Ledger, id: Uuid, projectId: Uuid, key: string, operation: Operation, peers: Peers, now: int)
    requires Valid(l) && id !in l.rows && forall k :: k in l.rows ==> l.rows[k].command.idempotencyKey != key
    ensures var (m, reply) := Submit(l, id, projectId, key, operation, peers, now);
            && (reply.Ok? <==>
                  && Willing(peers, operation)
                  && (forall k :: k in l.rows && l.rows[k].command.projectId == projectId ==>
                      !HoldsSlot(l.rows[k], now))
                  && |Holding(l, peers.target.value.environmentId, now)| < 4)
            && (reply.Ok? ==>
                  && reply.value == id && m.rows.Keys == l.rows.Keys + {id}
                  && m.rows[id].state == Accepted && m.rows[id].claimedAt.None? && m.rows[id].owner.None?
                  && m.rows[id].command
                     == Command(id, projectId, peers.target.value.environmentId, peers.target.value.localProjectId,
                                peers.target.value.sessionId, operation, key, now, now + 30_000))
            && (reply.Err? ==> m == l)
            && (reply.Err? && !Willing(peers, operation) ==> Unwilling(peers, operation, reply.code))
  {
    hide ValidRecord, Active, HoldsSlot, Recover;
    assert WithKey(l, key) == {};
    if peers.target.Some? { HoldingIsActive(l, peers.target.value.environmentId, now); }
    RecoveringJudges(l, now);
  }

  /** A slot that is held refuses with what holds it: an unresolved command, or one under way. */
  lemma HeldSlotDecided(
    l: Ledger, id: Uuid, projectId: Uuid, key: string, operation: Operation, peers: Peers, now: int, held: Uuid)
    requires WellBehaved(l) && id !in l.rows && forall k :: k in l.rows ==> l.rows[k].command.idempotencyKey != key
    requires Willing(peers, operation)
    requires held in l.rows && l.rows[held].command.projectId == projectId && HoldsSlot(l.rows[held], now)
    ensures Submit(l, id, projectId, key, operation, peers, now)
            == (l, Err(if l.rows[held].state == Unknown
                          || (l.rows[held].state == Executing && l.rows[held].claimedAt.value + 60_000 <= now)
                       then UnresolvedCommand else CommandConflict))
  {
    hide ValidRecord, Active, HoldsSlot, Expire, UniqueKeys, Capacity;
    assert WithKey(l, key) == {};
    HoldingIsActive(l, peers.target.value.environmentId, now);
    StillActive(l.rows[held], now);
    var recovered := Recover(l, now);
    RecoverShrinks(l, now);
    ShrinkingKeepsSlots(l, recovered);
    forall k | k in ActiveFor(recovered, projectId) ensures k == held { OneHolds(recovered, k, held); }
    assert held in ActiveFor(recovered, projectId);
  }

  lemma OneHolds(l: Ledger, i: Uuid, j: Uuid)
    requires Fence(l) && i in l.rows && j in l.rows && Active(l.rows[i]) && Active(l.rows[j])
    requires l.rows[i].command.projectId == l.rows[j].command.projectId
    ensures i == j
  {
  }

  /** The same key is the same submission: it is answered again, or refused for another operation or project. */
  lemma ReplayDecided(
    l: Ledger, id: Uuid, projectId: Uuid, key: string, operation: Operation, peers: Peers, now: int, previous: Uuid)
    requires WellBehaved(l) && previous in l.rows && l.rows[previous].command.idempotencyKey == key
    ensures var c := l.rows[previous].command;
            Submit(l, id, projectId, key, operation, peers, now)
            == (l, if c.projectId == projectId && c.operation == operation then Ok(previous)
                   else Err(IdempotencyConflict))
  {
    assert previous in WithKey(l, key);
    forall k | k in WithKey(l, key) ensures k == previous {
    }
  }

  // ----- claiming -----

  /** Everything a claim needs but its time. */
  predicate MayClaim(r: Record, who: Identity, verified: bool, target: Option<Target>) {
    && verified && r.state == Accepted && r.owner.None?
    && r.command.environmentId == who.environmentId && r.command.sessionId == who.sessionId
    && target.Some? && target.value.managed && target.value.environmentId == r.command.environmentId
    && target.value.localProjectId == r.command.localProjectId
  }

  /** An unclaimed command becomes executing if and only if its own session claims it for a project still managed,
      judged before its deadline and stamped no later than it; it then belongs to that session from that time. */
  lemma ClaimDecided(l: Ledger, who: Identity, id: Uuid, verified: bool, target: Option<Target>, seen: int, stamp: int)
    requires Valid(l) && id in l.rows && l.rows[id].state == Accepted
    ensures var (m, reply) := Claim(l, who, id, verified, target, seen, stamp);
            var r := l.rows[id];
            && (reply.Ok? <==>
                  && MayClaim(r, who, verified, target) && seen < r.command.expiresAt
                  && r.command.submittedAt <= stamp <= r.command.expiresAt)
            && (reply.Ok? ==>
                  && m.rows == l.rows[id := r.(state := Executing, claimedAt := Some(stamp),
                                               owner := Some(Owner(who.agentId, who.sessionId)))]
                  && reply.value == m.rows[id])
            && (reply == Err(CommandExpired) <==>
                  && verified && r.command.environmentId == who.environmentId
                  && r.command.sessionId == who.sessionId && r.command.expiresAt <= seen)
            && (reply == Err(CommandExpired) ==> m.rows == l.rows[id := r.(state := Expired)])
            && (reply.Err? && reply != Err(CommandExpired) ==> m == l)
  {
  }

  /** A claimed command answers its owner with what the deadlines leave of it, and no one else. */
  lemma ReclaimDecided(
    l: Ledger, who: Identity, id: Uuid, verified: bool, target: Option<Target>, seen: int, stamp: int)
    requires Valid(l) && id in l.rows && l.rows[id].owner.Some?
    ensures var (m, reply) := Claim(l, who, id, verified, target, seen, stamp);
            var r := l.rows[id];
            && (reply.Ok? <==>
                  && verified && r.command.environmentId == who.environmentId
                  && r.owner.value.agentId == who.agentId && r.owner.value.sessionId == who.sessionId)
            && (reply.Ok? ==> Judged(r, reply.value, seen) && m.rows == l.rows[id := reply.value])
            && (reply.Err? ==> m == l)
  {
    ExpiryIsJudged(l.rows[id], seen);
  }

  // ----- results -----

  /** The fields a result sets. */
  ghost predicate Shows(r: Record, result: CommandResult) {
    && r.state == result.state && r.diagnostic == result.diagnostic && r.evidence.Some?
    && Json.Print(r.evidence.value) == Json.Print(result.evidence)
  }

  /** A result is taken if and only if the owner sends it, nothing was closed and no other outcome is verified; a
      verified one is completed at the time it is received. */
  lemma PublicationDecided(l: Ledger, who: Identity, result: CommandResult, verified: bool, now: int)
    requires Valid(l) && Reportable(result.state) && result.commandId in l.rows
    requires l.rows[result.commandId].claimedAt.Some? ==> l.rows[result.commandId].claimedAt.value <= now
    ensures var (m, reply) := Publish(l, who, result, verified, now);
            var r := l.rows[result.commandId];
            && (reply.Ok? <==>
                  && verified && r.command.environmentId == who.environmentId
                  && r.owner == Some(Owner(who.agentId, who.sessionId)) && r.closure.None?
                  && (r.state == Succeeded || r.state == Failed ==> Shows(r, result)))
            && (reply.Ok? ==>
                  && reply.value == now && m.rows.Keys == l.rows.Keys
                  && (forall k :: k in l.rows && k != result.commandId ==> m.rows[k] == l.rows[k])
                  && var s := m.rows[result.commandId];
                  && Shows(s, result)
                  && s == r.(state := s.state, evidence := s.evidence, diagnostic := s.diagnostic,
                             completedAt := s.completedAt)
                  && (r.state == Executing || r.state == Unknown ==>
                        s.completedAt == if result.state == Unknown then None else Some(now))
                  && (r.state == Succeeded || r.state == Failed ==> s == r))
            && (reply.Err? ==> m == l)
  {
    hide Json.Print, Json.Normal;
    JsonCanonical.PrintOfNormal(result.evidence);
  }

  // ----- transferring and closing -----

  /** Another session of the same agent takes a command over; it never takes over permission to execute. */
  lemma TransferDecided(l: Ledger, who: Identity, id: Uuid, verified: bool, now: int)
    requires Valid(l) && id in l.rows
    ensures var (m, reply) := Transfer(l, who, id, verified, now);
            var r := l.rows[id];
            && (reply.Ok? <==>
                  && verified && r.command.environmentId == who.environmentId
                  && r.owner.Some? && r.owner.value.agentId == who.agentId)
            && (reply.Ok? ==>
                  && m.rows == l.rows[id := reply.value]
                  && if r.owner.value.sessionId == who.sessionId then Judged(r, reply.value, now)
                     else reply.value == r.(owner := Some(Owner(who.agentId, who.sessionId)),
                                            state := if r.state == Executing then Unknown else r.state))
            && (reply.Err? ==> m == l)
  {
    ExpiryIsJudged(l.rows[id], now);
  }

  /** Only an unknown outcome is closed, once, with a reason; the same reason again is answered again. */
  lemma ClosingDecided(l: Ledger, id: Uuid, reason: string, now: int)
    requires Valid(l) && id in l.rows
    ensures var (m, reply) := Close(l, id, reason, now);
            var r := l.rows[id];
            var unknown := r.state == Unknown || (r.state == Executing && r.claimedAt.value + 60_000 <= now);
            && (reply.Ok? <==> reason != "" && unknown && (r.closure.Some? ==> r.closure.value.reason == reason))
            && (reply.Ok? ==>
                  && m.rows == l.rows[id := reply.value]
                  && reply.value.state == Unknown
                  && reply.value.closure == (if r.closure.Some? then r.closure else Some(Closure(now, reason)))
                  && Judged(r, reply.value.(closure := r.closure), now))
            && (reply.Err? ==> m == l)
  {
    ExpiryIsJudged(l.rows[id], now);
  }

  // ----- losing the target -----

  /** Exactly the unclaimed commands of the environment, or of the project, expire. */
  lemma InvalidationDecided(l: Ledger, id: Uuid, now: int, k: Uuid)
    requires k in l.rows
    ensures var (m, n, r) := (InvalidateEnvironment(l, id, now), InvalidateProject(l, id, now), l.rows[k]);
            && m.rows.Keys == l.rows.Keys == n.rows.Keys
            && m.rows[k] == (if r.state == Accepted && r.command.environmentId == id then r.(state := Expired) else r)
            && n.rows[k] == (if r.state == Accepted && r.command.projectId == id then r.(state := Expired) else r)
  {
  }

  // ----- pruning -----

  /** When a command came to its end, as the retention of ninety days counts it. */
  function EndedAt(r: Record): Option<int> {
    match r.state
    case Succeeded => r.completedAt
    case Failed => r.completedAt
    case Expired => Some(r.command.expiresAt)
    case Unknown => if r.closure.Some? then Some(r.closure.value.closedAt) else None
    case _ => None
  }

  /** A command leaves if and only if it ended at least ninety days ago and nothing was audited of it since then; the
      others stay as the deadlines leave them. */
  lemma PruningDecided(l: Ledger, now: int, id: Uuid)
    requires Valid(l) && id in l.rows
    ensures var (recovered, m) := (Recover(l, now), Prune(l, now));
            var r := recovered.rows[id];
            && Judged(l.rows[id], r, now)
            && (id in m.rows ==> m.rows[id] == r)
            && (id !in m.rows <==>
                  && EndedAt(r).Some? && EndedAt(r).value + 90 * 24 * 3_600_000 <= now
                  && forall a :: a in recovered.audits && a.target == id ==> a.at + 90 * 24 * 3_600_000 <= now)
  {
    ExpiryIsJudged(l.rows[id], now);
    var (recovered, m, cutoff) := (Recover(l, now), Prune(l, now), now - 90 * 24 * 3_600_000);
    assert COMMAND_RETENTION_MS == 90 * 24 * 3_600_000;
    RecoverShrinks(l, now);
    RetentionDecided(recovered.rows[id], cutoff);
    AuditsDecided(recovered, cutoff, id);
  }

  lemma RetentionDecided(r: Record, cutoff: int)
    requires ValidRecord(r)
    ensures PastRetention(r, cutoff) <==> EndedAt(r).Some? && EndedAt(r).value <= cutoff
  {
  }

  lemma AuditsDecided(l: Ledger, cutoff: int, id: Uuid)
    requires id in l.rows
    ensures id in Discard(l, cutoff).rows ==> Discard(l, cutoff).rows[id] == l.rows[id]
    ensures id !in Discard(l, cutoff).rows <==>
              && PastRetention(l.rows[id], cutoff)
              && forall a :: a in l.audits && a.target == id ==> a.at <= cutoff
  {
    hide PastRetention;
    if a :| a in l.audits && a.target == id && cutoff < a.at {
      assert a in Discard(l, cutoff).audits;
    }
  }

  // ----- what a row shows was brought about -----

  /** The operation by which a row came to be as it is. */
  ghost predicate Causes(l: Ledger, q: Request, id: Uuid, s: Record) {
    match q
    case DoSubmit(i, _, _, _, _, now) =>
      (id in l.rows && Judged(l.rows[id], s, now))
        || (id == i && s.state == Accepted && s.claimedAt.None? && s.diagnostic.None?)
    case DoGet(i, now) => id == i && id in l.rows && Judged(l.rows[id], s, now)
    case DoRecover(now) => id in l.rows && Judged(l.rows[id], s, now)
    case DoPrune(now) => id in l.rows && Judged(l.rows[id], s, now)
    case DoClose(i, _, now) => id == i && id in l.rows && Judged(l.rows[id], s.(closure := l.rows[id].closure), now)
    case DoInvalidateEnvironment(e, _) => id in l.rows && l.rows[id].state == Accepted
      && s == l.rows[id].(state := Expired)
    case DoInvalidateProject(p, _) => id in l.rows && l.rows[id].state == Accepted && s == l.rows[id].(state := Expired)
    case DoClaim(who, i, verified, target, seen, stamp) =>
      && id == i && id in l.rows
      && (|| Judged(l.rows[id], s, seen)
          || (&& MayClaim(l.rows[id], who, verified, target) && seen < l.rows[id].command.expiresAt
              && s == l.rows[id].(state := Executing, claimedAt := Some(stamp),
                                  owner := Some(Owner(who.agentId, who.sessionId)))))
    case DoPublish(who, result, _, _) =>
      && id == result.commandId && id in l.rows && s.claimedAt == l.rows[id].claimedAt
         && s.command == l.rows[id].command
      && s.owner == l.rows[id].owner && s.diagnostic == result.diagnostic && s.state == result.state
    case DoTransfer(who, i, _, now) =>
      && id == i && id in l.rows
      && (|| Judged(l.rows[id], s, now)
          || (&& l.rows[id].owner.Some? && l.rows[id].owner.value.agentId == who.agentId
              && s == l.rows[id].(owner := Some(Owner(who.agentId, who.sessionId)),
                                  state := if l.rows[id].state == Executing then Unknown else l.rows[id].state)))
  }

  /** Every row is as it was, or the operation accounts for it. */
  lemma EveryChangeIsCaused(l: Ledger, q: Request, id: Uuid)
    requires Valid(l) && Admissible(l, q) && id in Next(l, q).rows
    ensures (id in l.rows && Next(l, q).rows[id] == l.rows[id]) || Causes(l, q, id, Next(l, q).rows[id])
  {
    hide Judged, Expire, ValidRecord, MayClaim, Submit, Claim, Publish, Transfer, Close, Prune, Recover, Json.Print,
      Json.Normal;
    if id in l.rows { assert l.rows[id].command.commandId == id; }
    match q
    case DoSubmit(i, projectId, key, operation, peers, now) => SubmissionCauses(l, q, id);
    case DoGet(i, now) => if i in l.rows { ReadingJudges(l, i, now); }
    case DoRecover(now) => RecoveringJudges(l, now);
    case DoPrune(now) => PruneShrinks(l, now); RecoverShrinks(l, now); PruningDecided(l, now, id);
    case DoClose(i, reason, now) => ClosingCauses(l, q, id);
    case DoInvalidateEnvironment(e, now) =>
    case DoInvalidateProject(p, now) =>
    case DoClaim(who, i, verified, target, seen, stamp) => ClaimCauses(l, q, id);
    case DoPublish(who, result, verified, now) => PublicationCauses(l, q, id);
    case DoTransfer(who, i, verified, now) => TransferCauses(l, q, id);
  }

  lemma SubmissionCauses(l: Ledger, q: Request, id: Uuid)
    requires Valid(l) && Admissible(l, q) && q.DoSubmit? && id in Next(l, q).rows
    ensures (id in l.rows && Next(l, q).rows[id] == l.rows[id]) || Causes(l, q, id, Next(l, q).rows[id])
  {
    hide Judged, Expire, ValidRecord, Submit, Recover, Admits;
    SubmitCases(l, q.id, q.projectId, q.key, q.operation, q.peers, q.now);
    RecoveringJudges(l, q.now);
  }

  lemma ClosingCauses(l: Ledger, q: Request, id: Uuid)
    requires Valid(l) && q.DoClose? && id in Next(l, q).rows
    ensures (id in l.rows && Next(l, q).rows[id] == l.rows[id]) || Causes(l, q, id, Next(l, q).rows[id])
  {
    hide Judged, ValidRecord, Close;
    if q.id in l.rows {
      ClosingDecided(l, q.id, q.reason, q.now);
    } else {
      UnknownChangesNothing(l, q);
    }
  }

  lemma UnknownChangesNothing(l: Ledger, q: Request)
    requires (q.DoClose? && q.id !in l.rows) || (q.DoClaim? && q.id !in l.rows) || (q.DoTransfer? && q.id !in l.rows)
             || (q.DoPublish? && q.result.commandId !in l.rows)
    ensures Next(l, q) == l
  {
  }

  lemma ClaimCauses(l: Ledger, q: Request, id: Uuid)
    requires Valid(l) && q.DoClaim? && id in Next(l, q).rows
    ensures (id in l.rows && Next(l, q).rows[id] == l.rows[id]) || Causes(l, q, id, Next(l, q).rows[id])
  {
    hide Claim, MayClaim;
    if q.id !in l.rows {
      UnknownChangesNothing(l, q);
    } else if l.rows[q.id].owner.Some? {
      ReclaimDecided(l, q.who, q.id, q.verified, q.target, q.seen, q.stamp);
    } else if l.rows[q.id].state == Accepted {
      ClaimDecided(l, q.who, q.id, q.verified, q.target, q.seen, q.stamp);
    } else {
      ExpiredClaimChangesNothing(l, q);
    }
  }

  lemma ExpiredClaimChangesNothing(l: Ledger, q: Request)
    requires Valid(l) && q.DoClaim? && q.id in l.rows && l.rows[q.id].owner.None? && l.rows[q.id].state != Accepted
    ensures Next(l, q).rows == l.rows
  {
  }

  lemma PublicationCauses(l: Ledger, q: Request, id: Uuid)
    requires Valid(l) && Admissible(l, q) && q.DoPublish? && id in Next(l, q).rows
    ensures (id in l.rows && Next(l, q).rows[id] == l.rows[id]) || Causes(l, q, id, Next(l, q).rows[id])
  {
    hide Json.Print, Json.Normal, ValidRecord, Reports;
  }

  lemma TransferCauses(l: Ledger, q: Request, id: Uuid)
    requires Valid(l) && q.DoTransfer? && id in Next(l, q).rows
    ensures (id in l.rows && Next(l, q).rows[id] == l.rows[id]) || Causes(l, q, id, Next(l, q).rows[id])
  {
    hide Judged, ValidRecord, Transfer;
    if q.id in l.rows {
      TransferDecided(l, q.who, q.id, q.verified, q.now);
    } else {
      UnknownChangesNothing(l, q);
    }
  }

  // ----- what is audited -----

  /** The audit of what a row became. */
  ghost predicate Audited(l: Ledger, id: Uuid, s: State, at: int) {
    exists a :: a in l.audits && a.target == id && a.outcome == s && a.at == at
  }

  lemma StoreIsAudited(l: Ledger, r: Record, operation: AuditOperation, at: int)
    ensures Audited(Store(l, r, operation, at), r.command.commandId, r.state, at)
    ensures l.audits <= Store(l, r, operation, at).audits
  {
    assert Audit(r.command.commandId, operation, at, r.state) in Store(l, r, operation, at).audits;
  }

  lemma RecoveringIsAudited(l: Ledger, now: int, id: Uuid)
    requires id in l.rows && l.rows[id].command.commandId == id
    ensures Recover(l, now).rows[id] != l.rows[id] ==> Audited(Recover(l, now), id, Recover(l, now).rows[id].state, now)
    ensures l.audits <= Recover(l, now).audits
  {
    var r := Expire(l.rows[id], now);
    ExpiryIsJudged(l.rows[id], now);
    assert r.command.commandId == id;
    assert r != l.rows[id] ==> ExpiryAudit(r, now) in Recover(l, now).audits;
  }

  lemma ReadingIsAudited(l: Ledger, id: Uuid, now: int)
    requires id in l.rows && l.rows[id].command.commandId == id
    ensures var m := ExpireRow(l, id, now);
            && m.rows.Keys == l.rows.Keys && l.audits <= m.audits
               && (m.rows[id] != l.rows[id] ==> Audited(m, id, m.rows[id].state, now))
            && forall k :: k in l.rows && k != id ==> m.rows[k] == l.rows[k]
  {
    var r := Expire(l.rows[id], now);
    if r != l.rows[id] { assert ExpiryAudit(r, now) in ExpireRow(l, id, now).audits; }
  }

  lemma InvalidationIsAudited(l: Ledger, ids: set<Uuid>, now: int, id: Uuid)
    requires id in l.rows && l.rows[id].command.commandId == id
    ensures var m := Invalidate(l, ids, now);
            && l.audits <= m.audits && (m.rows[id] != l.rows[id] ==> Audited(m, id, m.rows[id].state, now))
  {
    if id in ids && l.rows[id].state == Accepted {
      assert Audit(l.rows[id].command.commandId, Invalidated, now, Expired) in Invalidate(l, ids, now).audits;
    }
  }

  /** No operation but pruning forgets an audit, and every row it changes is audited as it becomes, at the time. */
  lemma EveryChangeIsAudited(l: Ledger, q: Request, id: Uuid)
    requires Valid(l) && Admissible(l, q) && !q.DoPrune? && id in Next(l, q).rows
    ensures l.audits <= Next(l, q).audits
    ensures (id in l.rows && Next(l, q).rows[id] == l.rows[id])
            || Audited(Next(l, q), id, Next(l, q).rows[id].state, FirstReading(q))
            || Audited(Next(l, q), id, Next(l, q).rows[id].state, LastReading(q))
  {
    hide Audited, ValidRecord, Expire, Submit, Recover, ExpireRow, Invalidate, Store, Json.Print, Json.Normal, Reports,
      WithResult;
    if id in l.rows { assert l.rows[id].command.commandId == id; }
    match q
    case DoSubmit(i, projectId, key, operation, peers, now) => SubmissionIsAudited(l, q, id);
    case DoGet(i, now) => if i in l.rows { KnowsItself(l, i); ReadingIsAudited(l, i, now); }
    case DoRecover(now) => KeysOfRecovery(l, now); RecoveringIsAudited(l, now, id);
    case DoClose(i, reason, now) => if i in l.rows { ClosingIsAudited(l, q, id); }
    case DoInvalidateEnvironment(e, now) =>
      KeysOfInvalidation(l, (set k | k in l.rows && l.rows[k].command.environmentId == e), now);
      InvalidationIsAudited(l, (set k | k in l.rows && l.rows[k].command.environmentId == e), now, id);
    case DoInvalidateProject(p, now) =>
      KeysOfInvalidation(l, (set k | k in l.rows && l.rows[k].command.projectId == p), now);
      InvalidationIsAudited(l, (set k | k in l.rows && l.rows[k].command.projectId == p), now, id);
    case DoClaim(who, i, verified, target, seen, stamp) => if i in l.rows { ClaimIsAudited(l, q, id); }
    case DoPublish(who, result, verified, now) => if result.commandId in l.rows { PublicationIsAudited(l, q, id); }
    case DoTransfer(who, i, verified, now) => if i in l.rows { TransferIsAudited(l, q, id); }
  }

  lemma KnowsItself(l: Ledger, id: Uuid)
    requires Valid(l) && id in l.rows
    ensures l.rows[id].command.commandId == id
  {
  }

  lemma KeysOfRecovery(l: Ledger, now: int)
    ensures Recover(l, now).rows.Keys == l.rows.Keys && l.audits <= Recover(l, now).audits
  {
  }

  lemma KeysOfInvalidation(l: Ledger, ids: set<Uuid>, now: int)
    ensures Invalidate(l, ids, now).rows.Keys == l.rows.Keys
  {
  }

  lemma SubmissionIsAudited(l: Ledger, q: Request, id: Uuid)
    requires Valid(l) && Admissible(l, q) && q.DoSubmit? && id in Next(l, q).rows
    ensures l.audits <= Next(l, q).audits
    ensures (id in l.rows && Next(l, q).rows[id] == l.rows[id])
            || Audited(Next(l, q), id, Next(l, q).rows[id].state, q.now)
  {
    hide ValidRecord, Expire, Submit, Recover, Store;
    SubmitCases(l, q.id, q.projectId, q.key, q.operation, q.peers, q.now);
    if Admits(l, q.projectId, q.key, q.operation, q.peers, q.now) {
      var r := NewRecord(q.id, q.projectId, q.key, q.operation, q.peers.target.value, q.now);
      var recovered := Recover(l, q.now);
      KeysOfRecovery(l, q.now);
      assert Next(l, q) == Store(recovered, r, Submitted, q.now);
      StoreIsAudited(recovered, r, Submitted, q.now);
      StoreChangesOne(recovered, r, Submitted, q.now);
      if id in l.rows {
        KnowsItself(l, id);
        RecoveringIsAudited(l, q.now, id);
      } else {
        assert id == q.id && Next(l, q).rows[id] == r;
        assert Audited(Next(l, q), r.command.commandId, r.state, q.now);
      }
    }
  }

  lemma ClosingIsAudited(l: Ledger, q: Request, id: Uuid)
    requires Valid(l) && q.DoClose? && q.id in l.rows && id in Next(l, q).rows
    ensures l.audits <= Next(l, q).audits
    ensures (id in l.rows && Next(l, q).rows[id] == l.rows[id])
            || Audited(Next(l, q), id, Next(l, q).rows[id].state, q.now)
  {
    hide Audited, ValidRecord, Store, ExpireRow;
    KnowsItself(l, q.id);
    ReadingIsAudited(l, q.id, q.now);
    ExpiryIsJudged(l.rows[q.id], q.now);
    var closed := Expire(l.rows[q.id], q.now).(closure := Some(Closure(q.now, q.reason)));
    StoreIsAudited(ExpireRow(l, q.id, q.now), closed, ClosedUnresolved, q.now);
    StoreChangesOne(ExpireRow(l, q.id, q.now), closed, ClosedUnresolved, q.now);
  }

  lemma StoreChangesOne(l: Ledger, r: Record, operation: AuditOperation, at: int)
    ensures Store(l, r, operation, at).rows == l.rows[r.command.commandId := r]
  {
  }

  lemma ClaimIsAudited(l: Ledger, q: Request, id: Uuid)
    requires Valid(l) && q.DoClaim? && q.id in l.rows && id in Next(l, q).rows
    ensures l.audits <= Next(l, q).audits
    ensures (id in l.rows && Next(l, q).rows[id] == l.rows[id])
            || Audited(Next(l, q), id, Next(l, q).rows[id].state, q.seen)
            || Audited(Next(l, q), id, Next(l, q).rows[id].state, q.stamp)
  {
    hide Audited, ValidRecord, Store, ExpireRow;
    KnowsItself(l, q.id);
    ReadingIsAudited(l, q.id, q.seen);
    ExpiryIsJudged(l.rows[q.id], q.seen);
    var claimed := Expire(l.rows[q.id], q.seen).(state := Executing, claimedAt := Some(q.stamp),
                                                  owner := Some(Owner(q.who.agentId, q.who.sessionId)));
    StoreIsAudited(l, claimed, Claimed, q.stamp);
    StoreChangesOne(l, claimed, Claimed, q.stamp);
  }

  lemma PublicationIsAudited(l: Ledger, q: Request, id: Uuid)
    requires Valid(l) && q.DoPublish? && q.result.commandId in l.rows && id in Next(l, q).rows
    ensures l.audits <= Next(l, q).audits
    ensures (id in l.rows && Next(l, q).rows[id] == l.rows[id])
            || Audited(Next(l, q), id, Next(l, q).rows[id].state, q.now)
  {
    hide Audited, ValidRecord, Store, Reports;
    KnowsItself(l, q.result.commandId);
    var r := WithResult(l.rows[q.result.commandId], q.result, q.now);
    StoreIsAudited(l, r, ResultRecorded, q.now);
    StoreChangesOne(l, r, ResultRecorded, q.now);
  }

  lemma TransferIsAudited(l: Ledger, q: Request, id: Uuid)
    requires Valid(l) && q.DoTransfer? && q.id in l.rows && id in Next(l, q).rows
    ensures l.audits <= Next(l, q).audits
    ensures (id in l.rows && Next(l, q).rows[id] == l.rows[id])
            || Audited(Next(l, q), id, Next(l, q).rows[id].state, q.now)
  {
    hide Audited, ValidRecord, Store, ExpireRow;
    KnowsItself(l, q.id);
    ReadingIsAudited(l, q.id, q.now);
    var r := l.rows[q.id];
    var moved := r.(owner := Some(Owner(q.who.agentId, q.who.sessionId)), state := if r.state == Executing then
                    Unknown else r.state);
    StoreIsAudited(l, moved, Transferred, q.now);
    StoreChangesOne(l, moved, Transferred, q.now);
  }

  // ----- over whole runs -----

  const TIMED_OUT := Some(Diagnostic(UnresolvedCommand, "Execution result not observed before timeout"))

  /** In this run, request j judged the row, and sixty seconds had passed since its claim. */
  ghost predicate TimedOutAt(requests: seq<Request>, j: nat, id: Uuid, claimedAt: Option<int>) {
    && j < |requests| && id in Run(requests[..j]).rows
    && var r := Run(requests[..j]).rows[id];
    r.state == Executing && r.claimedAt.Some? && r.claimedAt == claimedAt
    && r.claimedAt.value + 60_000 <= FirstReading(requests[j])
  }

  /** The row says that its result was not observed in time, and no agent ever reported that of it. */
  ghost predicate ShowsTimeout(requests: seq<Request>, id: Uuid) {
    && id in Run(requests).rows && Run(requests).rows[id].diagnostic == TIMED_OUT
    && forall k :: 0 <= k < |requests| && requests[k].DoPublish? && requests[k].result.commandId == id ==>
         requests[k].result.diagnostic != TIMED_OUT
  }

  lemma StepTimesOut(l: Ledger, q: Request, id: Uuid)
    requires Valid(l) && Admissible(l, q) && id in Next(l, q).rows && Next(l, q).rows[id].diagnostic == TIMED_OUT
    requires q.DoPublish? && q.result.commandId == id ==> q.result.diagnostic != TIMED_OUT
    requires id in l.rows && l.rows[id].state == Accepted ==> l.rows[id].diagnostic.None?
    ensures id in l.rows && Next(l, q).rows[id].claimedAt == l.rows[id].claimedAt
    ensures l.rows[id].diagnostic == TIMED_OUT
            || (&& l.rows[id].state == Executing && l.rows[id].claimedAt.Some?
                && l.rows[id].claimedAt.value + 60_000 <= FirstReading(q))
  {
    hide Next;
    EveryChangeIsCaused(l, q, id);
    assert id in l.rows;
    assert ValidRecord(l.rows[id]);
  }

  /** A command that was never claimed has no diagnostic. */
  lemma {:induction false} AcceptedIsBare(requests: seq<Request>, id: Uuid)
    requires AdmissibleRun(requests) && id in Run(requests).rows && Run(requests).rows[id].state == Accepted
    ensures Run(requests).rows[id].diagnostic.None?
  {
    var n := |requests| - 1;
    BeforeLast(requests);
    RunKeeps(requests[..n]);
    hide Next;
    EveryChangeIsCaused(Run(requests[..n]), requests[n], id);
    if id in Run(requests[..n]).rows {
      StaysAccepted(Run(requests[..n]), requests[n], id);
      AcceptedIsBare(requests[..n], id);
    }
  }

  lemma StaysAccepted(l: Ledger, q: Request, id: Uuid)
    requires Valid(l) && Admissible(l, q) && id in l.rows && id in Next(l, q).rows
             && Next(l, q).rows[id].state == Accepted
    ensures l.rows[id].state == Accepted && Next(l, q).rows[id].diagnostic == l.rows[id].diagnostic
  {
    hide Next;
    EveryChangeIsCaused(l, q, id);
    assert ValidRecord(l.rows[id]);
  }

  /** In every run, a row that shows a timeout was executing and had been claimed at least sixty seconds before the
      transaction that wrote it. */
  lemma {:induction false} TimeoutsWereDue(requests: seq<Request>, id: Uuid) returns (j: nat)
    requires AdmissibleRun(requests) && ShowsTimeout(requests, id)
    ensures TimedOutAt(requests, j, id, Run(requests).rows[id].claimedAt)
  {
    var n := |requests| - 1;
    var before := requests[..n];
    BeforeLast(requests);
    RunKeeps(before);
    hide Next;
    if id in Run(before).rows && Run(before).rows[id].state == Accepted { AcceptedIsBare(before, id); }
    StepTimesOut(Run(before), requests[n], id);
    if Run(before).rows[id].diagnostic == TIMED_OUT {
      j := TimeoutsWereDue(before, id);
      assert before[..j] == requests[..j];
    } else {
      j := n;
    }
  }

  lemma BeforeLast(requests: seq<Request>)
    requires AdmissibleRun(requests) && Run(requests) != EMPTY
    ensures var n := |requests| - 1;
            && n >= 0 && AdmissibleRun(requests[..n]) && Admissible(Run(requests[..n]), requests[n])
            && Run(requests) == Next(Run(requests[..n]), requests[n])
  {
    hide Next, Admissible;
    var n := |requests| - 1;
    assert n >= 0;
    assert requests[..n + 1] == requests;
    forall k | 0 <= k < n ensures Admissible(Run(requests[..n][..k]), requests[..n][k]) {
      assert requests[..n][..k] == requests[..k];
    }
  }

  /** Request j claimed the command in time, for this agent. */
  ghost predicate ClaimedAt(requests: seq<Request>, j: nat, id: Uuid, r: Record) {
    && j < |requests| && id in Run(requests[..j]).rows && requests[j].DoClaim? && requests[j].id == id
    && var q := requests[j];
    && Run(requests[..j]).rows[id].state == Accepted
       && MayClaim(Run(requests[..j]).rows[id], q.who, q.verified, q.target)
    && q.seen < r.command.expiresAt && r.claimedAt == Some(q.stamp)
    && r.owner.Some? && r.owner.value.agentId == q.who.agentId
  }

  lemma StepClaims(l: Ledger, q: Request, id: Uuid)
    requires Valid(l) && Admissible(l, q) && id in Next(l, q).rows && Next(l, q).rows[id].claimedAt.Some?
    ensures var s := Next(l, q).rows[id];
            && id in l.rows && s.command == l.rows[id].command
            && (|| (l.rows[id].claimedAt == s.claimedAt && l.rows[id].owner.Some? && s.owner.Some?
                    && s.owner.value.agentId == l.rows[id].owner.value.agentId)
                || (&& q.DoClaim? && q.id == id && MayClaim(l.rows[id], q.who, q.verified, q.target)
                    && q.seen < s.command.expiresAt && s.claimedAt == Some(q.stamp)
                    && s.owner == Some(Owner(q.who.agentId, q.who.sessionId))))
  {
    hide Next;
    EveryChangeIsCaused(l, q, id);
    assert id in l.rows;
    assert ValidRecord(l.rows[id]);
  }

  /** In every run, a row with a claim was claimed by an authenticated session of its owner, to which it was
      addressed, while it was accepted, its project managed and its deadline ahead. */
  lemma {:induction false} ClaimsWereDue(requests: seq<Request>, id: Uuid) returns (j: nat)
    requires AdmissibleRun(requests) && id in Run(requests).rows && Run(requests).rows[id].claimedAt.Some?
    ensures ClaimedAt(requests, j, id, Run(requests).rows[id])
  {
    var n := |requests| - 1;
    var before := requests[..n];
    BeforeLast(requests);
    RunKeeps(before);
    hide Next, MayClaim;
    StepClaims(Run(before), requests[n], id);
    var q := requests[n];
    if q.DoClaim? && q.id == id && MayClaim(Run(before).rows[id], q.who, q.verified, q.target)
       && q.seen < Run(requests).rows[id].command.expiresAt && Run(requests).rows[id].claimedAt == Some(q.stamp)
       && Run(requests).rows[id].owner == Some(Owner(q.who.agentId, q.who.sessionId))
    {
      j := n;
      ClaimableIsAccepted(Run(before).rows[id], q);
    } else {
      j := ClaimsWereDue(before, id);
      assert before[..j] == requests[..j];
    }
  }

  lemma ClaimableIsAccepted(r: Record, q: Request)
    requires q.DoClaim? && MayClaim(r, q.who, q.verified, q.target)
    ensures r.state == Accepted
  {
  }
}
