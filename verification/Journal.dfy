/** The agent's durable command journal, one entry at a time. */
module Journal {
  import opened Prelude
  import opened Wire

  const MAX_SAFE_INTEGER := 9007199254740991

  datatype StopTarget = StopTarget(
    configDir: string, runtimeProjectId: string, canonicalPath: string, pid: int, processIdentity: string)

  datatype Entry = Entry(
    command: Command, agentId: Uuid, canonicalPath: string, claim: Option<Record>,
    effectStartedAt: Option<int>, stopTarget: Option<StopTarget>, result: Option<CommandResult>,
    acknowledged: bool, acknowledgedAt: Option<int>, retiredAt: Option<int>)

  /** One content of the journal file, by command identifier. */
  type Image = map<Uuid, Entry>

  predicate Claimed(e: Entry) { e.claim.Some? && e.claim.value.claimedAt.Some? }

  predicate ValidTarget(e: Entry, t: StopTarget) {
    && e.effectStartedAt.Some? && e.command.operation == Stop && t.canonicalPath == e.canonicalPath
    && 1 <= t.pid <= MAX_SAFE_INTEGER && t.processIdentity != "" && t.configDir != "" && t.runtimeProjectId != ""
  }

  /** What loading the journal demands of an entry; every write is checked against it. */
  predicate ValidEntry(e: Entry) {
    && PositiveLifetime(e.command)
    && e.canonicalPath != "" && e.canonicalPath[0] == '/'
    && (e.claim.Some? ==>
          && ValidRecord(e.claim.value)
          && SameCommand(e.command, e.claim.value.command)
          && (e.claim.value.owner.Some? ==> e.claim.value.owner.value.agentId == e.agentId))
    && (e.effectStartedAt.Some? ==> Claimed(e))
    && (e.stopTarget.Some? ==> ValidTarget(e, e.stopTarget.value))
    && (e.result.Some? ==>
          Reportable(e.result.value.state) && e.result.value.commandId == e.command.commandId && Claimed(e))
    && (e.acknowledged ==> e.result.Some?)
  }

  function Receipt(command: Command, agentId: Uuid, canonicalPath: string): Entry {
    Entry(command, agentId, canonicalPath, None, None, None, None, false, None, None)
  }

  /** Each change is None where the journal throws and writes nothing. */
  function RecordClaim(e: Entry, record: Record): Option<Entry> {
    if !ValidRecord(record) then None
    else if !SameCommand(e.command, record.command) then None
    else if record.owner.Some? && record.owner.value.agentId != e.agentId then None
    else if Claimed(e) && e.claim.value.claimedAt != record.claimedAt then None
    else Some(e.(claim := Some(record)))
  }

  /** The second part tells whether this call set the marker. */
  function BeginEffect(e: Entry, at: int): Option<(Entry, bool)> {
    if e.effectStartedAt.Some? || e.result.Some? then Some((e, false))
    else if e.claim.None? || e.claim.value.state != Executing then None
    else Some((e.(effectStartedAt := Some(at)), true))
  }

  function PersistStopTarget(e: Entry, t: StopTarget): Option<Entry> {
    if e.command.operation != Stop || e.effectStartedAt.None? || t.canonicalPath != e.canonicalPath then None
    else if e.stopTarget.Some? && e.stopTarget.value != t then None
    else Some(e.(stopTarget := Some(t)))
  }

  function SaveResult(e: Entry, result: CommandResult): Option<Entry> {
    if !Reportable(result.state) || result.commandId != e.command.commandId || !Claimed(e) then None
    else if e.result.Some? && e.result.value != result then
      if e.result.value.state != Unknown || result.state == Unknown then None
      else Some(e.(result := Some(result), acknowledged := false, acknowledgedAt := None))
    else Some(e.(result := Some(result)))
  }

  function Acknowledge(e: Entry, at: int): Option<Entry> {
    if e.result.None? then None
    else Some(e.(acknowledged := true, acknowledgedAt := if e.acknowledgedAt.Some? then e.acknowledgedAt else Some(at)))
  }

  function Retire(e: Entry, at: int): Entry {
    e.(retiredAt := if e.retiredAt.Some? then e.retiredAt else Some(at))
  }

  /** When the entry was completed, as pruning sees it. */
  function CompletedAt(e: Entry): Option<int> {
    if e.retiredAt.Some? then e.retiredAt
    else if e.result.None? || e.result.value.state != Unknown then e.acknowledgedAt
    else None
  }

  predicate Prunable(e: Entry, cutoff: int) { CompletedAt(e).Some? && CompletedAt(e).value <= cutoff }

  function Pruned(image: Image, cutoff: int): Image {
    map id | id in image && !Prunable(image[id], cutoff) :: image[id]
  }

  /** Already finished as far as polling is concerned. */
  predicate Finished(e: Entry) {
    e.retiredAt.Some? || (e.acknowledged && !(e.result.Some? && e.result.value.state == Unknown))
  }

  // ----- how an entry may change -----

  /** Claim time, effect marker, stop target and verified result are written once;
      a retired entry stays retired; an acknowledgment goes only with an unknown result. */
  predicate Grows(e: Entry, f: Entry) {
    && f.command == e.command && f.agentId == e.agentId && f.canonicalPath == e.canonicalPath
    && (Claimed(e) ==> Claimed(f) && f.claim.value.claimedAt == e.claim.value.claimedAt)
    && (e.effectStartedAt.Some? ==> f.effectStartedAt == e.effectStartedAt)
    && (e.stopTarget.Some? ==> f.stopTarget == e.stopTarget)
    && (e.result.Some? ==> f.result.Some? && (Terminal(e.result.value.state) ==> f.result == e.result))
    && (e.acknowledged ==>
          f.acknowledged
            || (e.result.Some? && f.result.Some? && e.result.value.state == Unknown && Terminal(f.result.value.state)))
    && (e.retiredAt.Some? ==> f.retiredAt == e.retiredAt)
  }

  lemma GrowsTransitive(e: Entry, f: Entry, g: Entry)
    requires ValidEntry(e) && ValidEntry(f) && ValidEntry(g) && Grows(e, f) && Grows(f, g)
    ensures Grows(e, g)
  {
  }

  lemma RecordClaimGrows(e: Entry, record: Record)
    requires ValidEntry(e) && RecordClaim(e, record).Some?
    ensures ValidEntry(RecordClaim(e, record).value) && Grows(e, RecordClaim(e, record).value)
  {
  }

  lemma BeginEffectGrows(e: Entry, at: int)
    requires ValidEntry(e) && BeginEffect(e, at).Some?
    ensures ValidEntry(BeginEffect(e, at).value.0) && Grows(e, BeginEffect(e, at).value.0)
    ensures BeginEffect(e, at).value.1 <==> e.effectStartedAt.None? && e.result.None?
  {
  }

  lemma PersistStopTargetGrows(e: Entry, t: StopTarget)
    requires ValidEntry(e) && PersistStopTarget(e, t).Some?
    ensures Grows(e, PersistStopTarget(e, t).value)
    ensures ValidEntry(PersistStopTarget(e, t).value) <==> ValidTarget(e, t)
  {
  }

  lemma SaveResultGrows(e: Entry, result: CommandResult)
    requires ValidEntry(e) && SaveResult(e, result).Some?
    ensures ValidEntry(SaveResult(e, result).value) && Grows(e, SaveResult(e, result).value)
  {
  }

  lemma AcknowledgeGrows(e: Entry, at: int)
    requires ValidEntry(e) && Acknowledge(e, at).Some?
    ensures ValidEntry(Acknowledge(e, at).value) && Grows(e, Acknowledge(e, at).value)
  {
  }

  lemma RetireGrows(e: Entry, at: int)
    requires ValidEntry(e)
    ensures ValidEntry(Retire(e, at)) && Grows(e, Retire(e, at))
  {
  }
}
