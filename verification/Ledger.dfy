/**
 The fleet's command ledger: every service operation as the transaction it
 commits. An error leaves the ledger as it was, except that a claim that finds
 an expired command commits the expiry.
 */
module Ledger {
  import opened Prelude
  import opened Wire
  import Json

  datatype AuditOperation =
    | Submitted
    | ExpiryRecorded
    | TimedOut
    | Claimed
    | ResultRecorded
    | Transferred
    | ClosedUnresolved
    | Invalidated

  datatype Audit = Audit(target: Uuid, operation: AuditOperation, at: int, outcome: State)

  datatype Ledger = Ledger(rows: map<Uuid, Record>, audits: set<Audit>)

  const EMPTY := Ledger(map[], {})

  /** What the projection reports about the target of a command. */
  datatype Target = Target(
    environmentId: Uuid, localProjectId: string, agentId: Uuid, sessionId: Uuid,
    managed: bool, online: bool, valid: bool, supported: bool)

  /** Peer reads made inside the submitting transaction. */
  datatype Peers = Peers(target: Option<Target>, enrolled: bool, credential: Option<Uuid>)

  const TIMEOUT_DIAGNOSTIC := Diagnostic(UnresolvedCommand, "Execution result not observed before timeout")

  // ----- one row -----

  function Expire(r: Record, now: int): Record {
    if r.state == Accepted && r.command.expiresAt <= now then r.(state := Expired)
    else if r.state == Executing && r.claimedAt.Some? && r.claimedAt.value + OBSERVATION_TIMEOUT_MS <= now then
      r.(state := Unknown, diagnostic := Some(TIMEOUT_DIAGNOSTIC))
    else r
  }

  function ExpiryAudit(r: Record, now: int): Audit {
    Audit(r.command.commandId, if r.state == Expired then ExpiryRecorded else TimedOut, now, r.state)
  }

  function Store(l: Ledger, r: Record, operation: AuditOperation, at: int): Ledger {
    Ledger(l.rows[r.command.commandId := r], l.audits + {Audit(r.command.commandId, operation, at, r.state)})
  }

  function ExpireRow(l: Ledger, id: Uuid, now: int): Ledger
    requires id in l.rows
  {
    var r := Expire(l.rows[id], now);
    if r == l.rows[id] then l else Ledger(l.rows[id := r], l.audits + {ExpiryAudit(r, now)})
  }

  function Recover(l: Ledger, now: int): Ledger {
    Ledger(
      map id | id in l.rows :: Expire(l.rows[id], now),
      l.audits + set id | id in l.rows && Expire(l.rows[id], now) != l.rows[id] ::
        ExpiryAudit(Expire(l.rows[id], now), now))
  }

  // ----- operator operations -----

  function ActiveIn(l: Ledger, environmentId: Uuid): set<Uuid> {
    set id | id in l.rows && Active(l.rows[id]) && l.rows[id].command.environmentId == environmentId
  }

  function ActiveFor(l: Ledger, projectId: Uuid): set<Uuid> {
    set id | id in l.rows && Active(l.rows[id]) && l.rows[id].command.projectId == projectId
  }

  function WithKey(l: Ledger, key: string): set<Uuid> {
    set id | id in l.rows && l.rows[id].command.idempotencyKey == key
  }

  /** Why a target refuses a command; None when it accepts it. */
  function TargetRefusal(peers: Peers, operation: Operation): Option<ErrorCode> {
    if peers.target.None? then Some(NotFound)
    else
      var t := peers.target.value;
      if !peers.enrolled then Some(AccessRevoked)
      else if !t.managed then Some(ProjectUnmanaged)
      else if !t.supported then Some(UnsupportedProtocol)
      else if operation == Start && !t.valid then Some(ProjectInvalid)
      else if !t.online then Some(AgentOffline)
      else if peers.credential != Some(t.agentId) then Some(AccessRevoked)
      else None
  }

  /** `id` is the fresh identifier the service draws. */
  ghost function Submit(l: Ledger, id: Uuid, projectId: Uuid, key: string, operation: Operation, peers: Peers, now: int)
    : (Ledger, Reply<Uuid>)
  {
    if WithKey(l, key) != {} then
      var previous :| previous in WithKey(l, key);
      var c := l.rows[previous].command;
      if c.projectId != projectId || c.operation != operation then (l, Err(IdempotencyConflict))
      else (l, Ok(previous))
    else
      var recovered := Recover(l, now);
      var refusal := TargetRefusal(peers, operation);
      if refusal.Some? then (l, Err(refusal.value))
      else if ActiveFor(recovered, projectId) != {} then
        var blocking :| blocking in ActiveFor(recovered, projectId);
        (l, Err(if recovered.rows[blocking].state == Unknown then UnresolvedCommand else CommandConflict))
      else if |ActiveIn(recovered, peers.target.value.environmentId)| >= ACTIVE_COMMANDS_PER_AGENT then
          (l, Err(AgentBusy))
      else if id in recovered.rows then (l, Err(SchemaViolation))
      else
        (Store(recovered, NewRecord(id, projectId, key, operation, peers.target.value, now), Submitted, now), Ok(id))
  }

  function NewRecord(id: Uuid, projectId: Uuid, key: string, operation: Operation, t: Target, now: int): Record {
    Record(
      Command(id, projectId, t.environmentId, t.localProjectId, t.sessionId, operation, key, now,
              now + CLAIM_LIFETIME_MS),
      Accepted, None, None, None, None, None, None)
  }

  function Get(l: Ledger, id: Uuid, now: int): (Ledger, Reply<Record>) {
    if id !in l.rows then (l, Err(NotFound)) else (ExpireRow(l, id, now), Ok(Expire(l.rows[id], now)))
  }

  function Close(l: Ledger, id: Uuid, reason: string, now: int): (Ledger, Reply<Record>) {
    if reason == "" then (l, Err(InvalidInput))
    else if id !in l.rows then (l, Err(NotFound))
    else
      var r := Expire(l.rows[id], now);
      if r.state != Unknown then (l, Err(CommandConflict))
      else if r.closure.Some? then
        if r.closure.value.reason != reason then (l, Err(CommandConflict)) else (l, Ok(r))
      else
        var closed := r.(closure := Some(Closure(now, reason)));
        (Store(ExpireRow(l, id, now), closed, ClosedUnresolved, now), Ok(closed))
  }

  /** Unclaimed commands lose their target: an environment is revoked or a project removed. */
  function Invalidate(l: Ledger, ids: set<Uuid>, now: int): Ledger {
    Ledger(
      map id | id in l.rows ::
        if id in ids && l.rows[id].state == Accepted then l.rows[id].(state := Expired) else l.rows[id],
      l.audits + set id | id in l.rows && id in ids && l.rows[id].state == Accepted ::
        Audit(l.rows[id].command.commandId, Invalidated, now, Expired))
  }

  function InvalidateEnvironment(l: Ledger, environmentId: Uuid, now: int): Ledger {
    Invalidate(l, (set id | id in l.rows && l.rows[id].command.environmentId == environmentId), now)
  }

  function InvalidateProject(l: Ledger, projectId: Uuid, now: int): Ledger {
    Invalidate(l, (set id | id in l.rows && l.rows[id].command.projectId == projectId), now)
  }

  predicate PastRetention(r: Record, cutoff: int) {
    || (Terminal(r.state) && r.completedAt.Some? && r.completedAt.value <= cutoff)
    || (r.state == Expired && r.command.expiresAt <= cutoff)
    || (r.state == Unknown && r.closure.Some? && r.closure.value.closedAt <= cutoff)
  }

  /** Old audits go unless their command is active; old commands go once no recent audit names them. */
  function Discard(l: Ledger, cutoff: int): Ledger {
    var audits := set a | a in l.audits && (cutoff < a.at || (a.target in l.rows && Active(l.rows[a.target])));
    Ledger(
      map id | id in l.rows
        && !(PastRetention(l.rows[id], cutoff) && !exists a :: a in audits && a.target == id && cutoff < a.at)
        :: l.rows[id],
      audits)
  }

  function Prune(l: Ledger, now: int): Ledger { Discard(Recover(l, now), now - COMMAND_RETENTION_MS) }

  // ----- agent operations -----

  predicate Owns(r: Record, who: Identity) {
    r.command.environmentId == who.environmentId && r.owner == Some(Owner(who.agentId, who.sessionId))
  }

  /** The clock is read once to judge expiry (`seen`) and once to stamp the claim (`stamp`). */
  function Claim(l: Ledger, who: Identity, id: Uuid, verified: bool, target: Option<Target>, seen: int, stamp: int)
    : (Ledger, Reply<Record>)
  {
    if !verified then (l, Err(Unauthenticated))
    else if id !in l.rows then (l, Err(NotFound))
    else
      var r := l.rows[id];
      if r.command.environmentId != who.environmentId then (l, Err(ClaimOwnerConflict))
      else if r.owner.Some? then
        if Owns(r, who) then (ExpireRow(l, id, seen), Ok(Expire(r, seen))) else (l, Err(ClaimOwnerConflict))
      else if r.command.sessionId != who.sessionId then (l, Err(ClaimOwnerConflict))
      else if Expire(r, seen).state == Expired then (ExpireRow(l, id, seen), Err(CommandExpired))
      else if target.None? || !target.value.managed || target.value.environmentId != r.command.environmentId
              || target.value.localProjectId != r.command.localProjectId then (l, Err(ProjectUnmanaged))
      else
        var claimed :=
            Expire(r, seen).(state := Executing, claimedAt := Some(stamp),
                             owner := Some(Owner(who.agentId, who.sessionId)));
        if !ValidRecord(claimed) then (l, Err(SchemaViolation))
        else (Store(l, claimed, Claimed, stamp), Ok(claimed))
  }

  /** Evidence is stored as canonical text, so reading it back gives its normal form. */
  function WithResult(r: Record, result: CommandResult, receivedAt: int): Record {
    r.(state := result.state, evidence := Some(Json.Normal(result.evidence)), diagnostic := result.diagnostic,
       completedAt := if result.state != Unknown then Some(receivedAt) else r.completedAt)
  }

  function Publish(l: Ledger, who: Identity, result: CommandResult, verified: bool, now: int): (Ledger, Reply<int>) {
    if !verified then (l, Err(Unauthenticated))
    else if result.commandId !in l.rows then (l, Err(NotFound))
    else
      var r := l.rows[result.commandId];
      if !Owns(r, who) then (l, Err(ClaimOwnerConflict))
      else if r.closure.Some? then (l, Err(CommandConflict))
      else if Reports(r, result) then (l, Ok(now))
      else if Terminal(r.state) then (l, Err(CommandConflict))
      else if !ValidRecord(WithResult(r, result, now)) then (l, Err(SchemaViolation))
      else (Store(l, WithResult(r, result, now), ResultRecorded, now), Ok(now))
  }

  function Transfer(l: Ledger, who: Identity, id: Uuid, verified: bool, now: int): (Ledger, Reply<Record>) {
    if !verified then (l, Err(Unauthenticated))
    else if id !in l.rows then (l, Err(NotFound))
    else
      var r := l.rows[id];
      if r.command.environmentId != who.environmentId || r.owner.None? || r.owner.value.agentId != who.agentId then
        (l, Err(ClaimOwnerConflict))
      else if r.owner.value.sessionId == who.sessionId then (ExpireRow(l, id, now), Ok(Expire(r, now)))
      else
        var moved := r.(owner := Some(Owner(who.agentId, who.sessionId)),
                        state := if r.state == Executing then Unknown else r.state);
        (Store(l, moved, Transferred, now), Ok(moved))
  }

  // ----- runs -----

  datatype Request =
    | DoSubmit(id: Uuid, projectId: Uuid, key: string, operation: Operation, peers: Peers, now: int)
    | DoGet(id: Uuid, now: int)
    | DoClose(id: Uuid, reason: string, now: int)
    | DoRecover(now: int)
    | DoInvalidateEnvironment(environmentId: Uuid, now: int)
    | DoInvalidateProject(projectId: Uuid, now: int)
    | DoPrune(now: int)
    | DoClaim(who: Identity, id: Uuid, verified: bool, target: Option<Target>, seen: int, stamp: int)
    | DoPublish(who: Identity, result: CommandResult, verified: bool, now: int)
    | DoTransfer(who: Identity, id: Uuid, verified: bool, now: int)

  ghost function Next(l: Ledger, q: Request): Ledger {
    match q
    case DoSubmit(id, projectId, key, operation, peers, now) => Submit(l, id, projectId, key, operation, peers, now).0
    case DoGet(id, now) => Get(l, id, now).0
    case DoClose(id, reason, now) => Close(l, id, reason, now).0
    case DoRecover(now) => Recover(l, now)
    case DoInvalidateEnvironment(environmentId, now) => InvalidateEnvironment(l, environmentId, now)
    case DoInvalidateProject(projectId, now) => InvalidateProject(l, projectId, now)
    case DoPrune(now) => Prune(l, now)
    case DoClaim(who, id, verified, target, seen, stamp) => Claim(l, who, id, verified, target, seen, stamp).0
    case DoPublish(who, result, verified, now) => Publish(l, who, result, verified, now).0
    case DoTransfer(who, id, verified, now) => Transfer(l, who, id, verified, now).0
  }

  ghost function Run(requests: seq<Request>): Ledger {
    if requests == [] then EMPTY else Next(Run(requests[..|requests| - 1]), requests[|requests| - 1])
  }
}
