/** Wire values of the management protocol and the shapes their schemas demand. */
module Wire {
  import opened Prelude
  import Json

  const CLAIM_LIFETIME_MS := 30_000
  const OBSERVATION_TIMEOUT_MS := 60_000
  const ACTIVE_COMMANDS_PER_AGENT := 4
  const COMMAND_RETENTION_MS := 90 * 24 * 60 * 60_000
  const JOURNAL_RETENTION_MS := 30 * 24 * 60 * 60_000
  const MANAGED_PROJECTS_PER_AGENT := 100

  /** Opaque unique identifiers; only their equality matters. */
  type Uuid = nat

  datatype Operation = Start | Stop
  datatype State = Accepted | Executing | Succeeded | Failed | Expired | Unknown

  datatype ErrorCode =
    | AgentOffline | ProjectUnmanaged | ProjectInvalid | UnsupportedProtocol
    | CommandConflict | IdempotencyConflict | CommandExpired | UnresolvedCommand
    | ProcessUnverified | SupersededTarget | ClaimOwnerConflict | AgentBusy
    | InvalidInput | Unauthenticated | AccessRevoked | NotFound | SessionConflict | LogUnavailable
    /** A row or message that its schema refuses; the transaction rolls back. */
    | SchemaViolation

  datatype Diagnostic = Diagnostic(code: ErrorCode, message: string)

  datatype Reply<+T> = Ok(value: T) | Err(code: ErrorCode)

  datatype Command = Command(
    commandId: Uuid, projectId: Uuid, environmentId: Uuid, localProjectId: string, sessionId: Uuid,
    operation: Operation, idempotencyKey: string, submittedAt: int, expiresAt: int)

  datatype Owner = Owner(agentId: Uuid, sessionId: Uuid)
  datatype Closure = Closure(closedAt: int, reason: string)

  datatype Record = Record(
    command: Command, state: State, claimedAt: Option<int>, owner: Option<Owner>,
    completedAt: Option<int>, evidence: Option<Json.Value>, diagnostic: Option<Diagnostic>,
    closure: Option<Closure>)

  datatype CommandResult = CommandResult(
    commandId: Uuid, state: State, observedAt: int, evidence: Json.Value, diagnostic: Option<Diagnostic>)

  /** An authenticated agent: its environment, its enrollment and its session. */
  datatype Identity = Identity(environmentId: Uuid, agentId: Uuid, sessionId: Uuid)

  predicate Terminal(s: State) { s == Succeeded || s == Failed }

  /** A state a result may report. */
  predicate Reportable(s: State) { Terminal(s) || s == Unknown }

  /** Holds the project slot. */
  predicate Active(r: Record) {
    r.state == Accepted || r.state == Executing || (r.state == Unknown && r.closure.None?)
  }

  /** No execution permission will ever be granted or replayed again. */
  predicate Settled(s: State) { s != Accepted && s != Executing }

  /** The session may change with ownership; everything else identifies the command. */
  predicate SameCommand(left: Command, right: Command) {
    left.(sessionId := right.sessionId) == right
  }

  predicate PositiveLifetime(c: Command) { c.submittedAt < c.expiresAt }

  /** What the record schema and the table checks demand of a row. */
  predicate ValidRecord(r: Record) {
    var claimed := r.state != Accepted && r.state != Expired;
    && PositiveLifetime(r.command)
    && (r.claimedAt.Some? ==> r.command.submittedAt <= r.claimedAt.value <= r.command.expiresAt)
    && (r.completedAt.Some? ==> r.claimedAt.Some? && r.claimedAt.value <= r.completedAt.value)
    && (Terminal(r.state) ==> r.evidence.Some?)
    && claimed == (r.claimedAt.Some? && r.owner.Some?)
    && (claimed || (r.claimedAt.None? && r.owner.None?))
    && Terminal(r.state) == r.completedAt.Some?
    && (r.closure.Some? ==> r.state == Unknown && r.closure.value.reason != "")
  }

  /** The stored outcome is this result. */
  predicate Reports(r: Record, result: CommandResult) {
    && r.state == result.state
    && r.evidence.Some?
    && Json.Print(r.evidence.value) == Json.Print(result.evidence)
    && r.diagnostic == result.diagnostic
  }
}
