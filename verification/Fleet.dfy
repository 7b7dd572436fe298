/**
 Enrollment, sessions and the inventory projection of the fleet, beside the
 ledger they share transactions with. Every operation is the transaction it
 commits; None is an operation that throws and changes nothing.
 */
module Fleet {
  import opened Prelude
  import opened Wire
  import Json
  import L = Ledger

  const SESSION_LIFETIME_MS := 30_000
  const TOKEN_LIFETIME_MS := 10 * 60_000
  const MAXIMUM_PAGES := 100

  datatype Enrollment = Pending | Enrolled | Revoked
  datatype Connection = AwaitingSignal | Online | Offline
  datatype Environment = Environment(enrollment: Enrollment, connection: Connection, lastContact: Option<int>)

  /** Secrets are known by their verifiers, which no two secrets share. */
  datatype Token = Token(verifier: nat, expiresAt: int)
  datatype Credential = Credential(agentId: Uuid, verifier: nat)

  datatype Session = Session(agentId: Uuid, sessionId: Uuid, expiresAt: int, sequence: int)

  datatype Validation = ValidProject | InvalidProject(code: ErrorCode)

  datatype Observation = Observation(
    projectId: Uuid, localProjectId: string, validation: Validation,
    snapshot: Option<Json.Value>, snapshotObservedAt: Option<int>, snapshotError: Option<Diagnostic>)

  /** A projected project; `agentId` is the enrollment it was published under. */
  datatype Project = Project(
    environmentId: Uuid, localProjectId: string, agentId: Uuid, managed: bool, published: bool,
    observation: Option<Observation>, receivedAt: Option<int>)

  datatype Revision = Revision(sessionId: Uuid, revisionId: Uuid, pageCount: nat, complete: bool)
  datatype Page = Page(index: nat, ids: seq<Uuid>)

  datatype Fleet = Fleet(
    environments: map<Uuid, Environment>, tokens: map<Uuid, Token>, credentials: map<Uuid, Credential>,
    sessions: map<Uuid, Session>, projects: map<Uuid, Project>, revisions: map<Uuid, Revision>,
    pages: map<Uuid, seq<Page>>, ledger: L.Ledger)

  const NO_FLEET := Fleet(map[], map[], map[], map[], map[], map[], map[], L.EMPTY)

  // ----- enrollment -----

  function IssueToken(f: Fleet, id: Uuid, verifier: nat, now: int): Fleet {
    f.(tokens := f.tokens[id := Token(verifier, now + TOKEN_LIFETIME_MS)])
  }

  function CreateEnvironment(f: Fleet, id: Uuid, verifier: nat, now: int): Option<Fleet> {
    if id in f.environments then None
    else Some(IssueToken(f.(environments := f.environments[id := Environment(Pending, AwaitingSignal, None)]), id,
                         verifier, now))
  }

  function Regenerate(f: Fleet, id: Uuid, verifier: nat, now: int): Option<Fleet> {
    if id !in f.environments || f.environments[id].enrollment == Enrolled then None
    else Some(IssueToken(f.(environments := f.environments[id := Environment(Pending, AwaitingSignal, None)]), id,
                         verifier, now))
  }

  predicate Redeems(f: Fleet, id: Uuid, verifier: nat, now: int) {
    && id in f.tokens && f.tokens[id].verifier == verifier && now < f.tokens[id].expiresAt
    && id in f.environments && f.environments[id].enrollment == Pending
  }

  /** `id` is the environment whose token has this verifier; it is unique. */
  function Enroll(f: Fleet, id: Uuid, verifier: nat, agentId: Uuid, credential: nat, now: int): Option<Fleet> {
    if !Redeems(f, id, verifier, now) || id in f.credentials then None
    else
      Some(f.(tokens := f.tokens - {id},
              credentials := f.credentials[id := Credential(agentId, credential)],
              environments := f.environments[id := Environment(Enrolled, AwaitingSignal, None)]))
  }

  function Revoke(f: Fleet, id: Uuid, now: int): Option<Fleet> {
    if id !in f.environments then None
    else if f.environments[id].enrollment == Revoked then Some(f)
    else
      Some(f.(tokens := f.tokens - {id}, credentials := f.credentials - {id}, sessions := f.sessions - {id},
              environments := f.environments[id := f.environments[id].(enrollment := Revoked, connection := Offline)],
              ledger := L.InvalidateEnvironment(f.ledger, id, now)))
  }

  predicate Authentic(f: Fleet, id: Uuid, agentId: Uuid, credential: nat) {
    && id in f.credentials && f.credentials[id] == Credential(agentId, credential)
    && id in f.environments && f.environments[id].enrollment == Enrolled
  }

  // ----- sessions -----

  function OpenSession(f: Fleet, id: Uuid, agentId: Uuid, credential: nat, sessionId: Uuid, now: int): Option<Fleet> {
    if !Authentic(f, id, agentId, credential) then None
    else if id in f.sessions && now < f.sessions[id].expiresAt then None
    else
      Some(f.(sessions := f.sessions[id := Session(agentId, sessionId, now + SESSION_LIFETIME_MS, -1)],
              environments := f.environments[id := f.environments[id].(
                connection := if f.environments[id].lastContact.None? then AwaitingSignal else Offline)]))
  }

  predicate Current(f: Fleet, id: Uuid, agentId: Uuid, sessionId: Uuid, now: int) {
    && id in f.sessions && f.sessions[id].agentId == agentId && f.sessions[id].sessionId == sessionId
    && now < f.sessions[id].expiresAt
  }

  function WentOffline(e: Environment): Environment {
    if e.enrollment == Enrolled && e.lastContact.Some? then e.(connection := Offline) else e
  }

  function ExpireSessions(f: Fleet, now: int): Fleet {
    f.(environments := map id | id in f.environments ::
      if id in f.sessions && f.sessions[id].expiresAt <= now then WentOffline(f.environments[id])
      else f.environments[id])
  }

  function Restart(f: Fleet, now: int): Fleet {
    f.(sessions := map id | id in f.sessions :: f.sessions[id].(expiresAt := now),
       environments := map id | id in f.environments :: WentOffline(f.environments[id]))
  }

  // ----- project identities -----

  predicate Unpublished(f: Fleet, id: Uuid, environmentId: Uuid) {
    id in f.projects && f.projects[id].environmentId == environmentId && !f.projects[id].published
  }

  predicate Named(f: Fleet, id: Uuid, environmentId: Uuid, agentId: Uuid, localProjectId: string) {
    && id in f.projects && f.projects[id].environmentId == environmentId && f.projects[id].agentId == agentId
    && f.projects[id].localProjectId == localProjectId
  }

  /** One row for each environment, enrollment and local name. */
  ghost predicate UniqueNames(f: Fleet) {
    forall p, q | p in f.projects && q in f.projects && SameName(f.projects[p], f.projects[q]) :: p == q
  }

  predicate SameName(a: Project, b: Project) {
    a.environmentId == b.environmentId && a.agentId == b.agentId && a.localProjectId == b.localProjectId
  }

  /** Unpublished rows of retired enrollments carry no history. */
  function WithoutAbandoned(f: Fleet, environmentId: Uuid, agentId: Uuid): Fleet {
    f.(projects :=
         map id | id in f.projects && !(Unpublished(f, id, environmentId) && f.projects[id].agentId != agentId)
           :: f.projects[id])
  }

  /** The rows and identifiers so far, and how many unpublished rows there are. */
  datatype Naming = Naming(fleet: Fleet, ids: seq<Uuid>, outstanding: nat)

  ghost function NameOne(
    n: Naming, environmentId: Uuid, agentId: Uuid, localProjectId: string, drawn: Uuid): Option<Naming> {
    if id :| Named(n.fleet, id, environmentId, agentId, localProjectId) then Some(n.(ids := n.ids + [id]))
    else if n.outstanding >= MANAGED_PROJECTS_PER_AGENT || drawn in n.fleet.projects then None
    else
      Some(Naming(
        n.fleet.(projects :=
                 n.fleet.projects[drawn := Project(environmentId, localProjectId, agentId, false, false, None, None)]),
        n.ids + [drawn], n.outstanding + 1))
  }

  ghost function NameAll(
    n: Naming, environmentId: Uuid, agentId: Uuid, localProjectIds: seq<string>, drawn: seq<Uuid>): Option<Naming>
    requires |drawn| == |localProjectIds|
  {
    if localProjectIds == [] then Some(n)
    else
      var k := |localProjectIds| - 1;
      var m := NameAll(n, environmentId, agentId, localProjectIds[..k], drawn[..k]);
      if m.None? then None else NameOne(m.value, environmentId, agentId, localProjectIds[k], drawn[k])
  }

  ghost function IdentifyProjects(
    f: Fleet, environmentId: Uuid, localProjectIds: seq<string>, drawn: seq<Uuid>): Option<Naming>
    requires |drawn| == |localProjectIds|
  {
    if |localProjectIds| > MANAGED_PROJECTS_PER_AGENT
       || (exists i, j :: 0 <= i < j < |localProjectIds| && localProjectIds[i] == localProjectIds[j])
       || "" in localProjectIds then None
    else if environmentId !in f.environments || f.environments[environmentId].enrollment != Enrolled
            || environmentId !in f.credentials then None
    else
      var agentId := f.credentials[environmentId].agentId;
      var g := WithoutAbandoned(f, environmentId, agentId);
      NameAll(Naming(g, [], |set id | id in g.projects && Unpublished(g, id, environmentId)|),
              environmentId, agentId, localProjectIds, drawn)
  }

  // ----- observations -----

  datatype Inventory = Inventory(revisionId: Uuid, pageIndex: nat, pageCount: nat, projects: seq<Observation>)

  /** What the inventory schema demands of one page. */
  predicate ValidInventory(v: Inventory) {
    && v.pageIndex < v.pageCount <= MAXIMUM_PAGES && |v.projects| <= MANAGED_PROJECTS_PER_AGENT
    && (forall i, j :: 0 <= i < j < |v.projects| ==> v.projects[i].projectId != v.projects[j].projectId)
    && (forall i, j :: 0 <= i < j < |v.projects| ==> v.projects[i].localProjectId != v.projects[j].localProjectId)
  }

  function Rows(f: Fleet, environmentId: Uuid): seq<Page> {
    if environmentId in f.pages then f.pages[environmentId] else []
  }

  function IdsOf(rows: seq<Page>): seq<Uuid> {
    if rows == [] then [] else IdsOf(rows[..|rows| - 1]) + rows[|rows| - 1].ids
  }

  function SetOf(ids: seq<Uuid>): set<Uuid> { set id | id in ids }

  function ProjectIds(observations: seq<Observation>): seq<Uuid> {
    seq(|observations|, i requires 0 <= i < |observations| => observations[i].projectId)
  }

  predicate Continues(f: Fleet, environmentId: Uuid, sessionId: Uuid, v: Inventory) {
    && environmentId in f.revisions && f.revisions[environmentId].sessionId == sessionId
    && f.revisions[environmentId].revisionId == v.revisionId
  }

  /** A page of another session or revision starts over, and must be the first. */
  function BeginPage(f: Fleet, environmentId: Uuid, sessionId: Uuid, v: Inventory): Option<Fleet> {
    if Continues(f, environmentId, sessionId, v) then
      if f.revisions[environmentId].complete || f.revisions[environmentId].pageCount != v.pageCount then None
      else Some(f)
    else if v.pageIndex != 0 then None
    else
      Some(f.(pages := f.pages[environmentId := []],
              revisions := f.revisions[environmentId := Revision(sessionId, v.revisionId, v.pageCount, false)]))
  }

  predicate Fresh(rows: seq<Page>, v: Inventory) {
    && (forall k :: 0 <= k < |rows| ==> rows[k].index != v.pageIndex)
    && |IdsOf(rows)| + |v.projects| <= MANAGED_PROJECTS_PER_AGENT
    && forall k :: 0 <= k < |v.projects| ==> v.projects[k].projectId !in IdsOf(rows)
  }

  predicate SaysUnmanaged(o: Observation) { o.validation == InvalidProject(ProjectUnmanaged) }

  /** A missing snapshot keeps the last one, marked as unavailable. */
  function Retained(o: Observation, previous: Option<Observation>): Observation {
    if o.snapshot.None? && previous.Some? && previous.value.snapshot.Some? then
      o.(snapshot := previous.value.snapshot, snapshotObservedAt := previous.value.snapshotObservedAt,
         snapshotError := if o.snapshotError.Some? then o.snapshotError else Some(LATEST_UNAVAILABLE))
    else o
  }

  const LATEST_UNAVAILABLE := Diagnostic(LogUnavailable, "Latest snapshot unavailable")

  predicate Accepts(f: Fleet, environmentId: Uuid, o: Observation) {
    && o.projectId in f.projects && environmentId in f.sessions
    && f.projects[o.projectId].environmentId == environmentId
    && f.projects[o.projectId].agentId == f.sessions[environmentId].agentId
    && f.projects[o.projectId].localProjectId == o.localProjectId
  }

  function Observed(f: Fleet, o: Observation, now: int): Fleet
    requires o.projectId in f.projects
  {
    var p := f.projects[o.projectId];
    f.(projects :=
       f.projects[o.projectId := p.(observation := Some(Retained(o, p.observation)), receivedAt := Some(now))],
       ledger := if p.managed && SaysUnmanaged(o) then L.InvalidateProject(f.ledger, o.projectId, now) else f.ledger)
  }

  function ObservedAll(f: Fleet, environmentId: Uuid, observations: seq<Observation>, now: int): Option<Fleet> {
    if observations == [] then Some(f)
    else
      var (rest, last) := (observations[..|observations| - 1], observations[|observations| - 1]);
      var g := ObservedAll(f, environmentId, rest, now);
      if g.None? || !Accepts(g.value, environmentId, last) then None else Some(Observed(g.value, last, now))
  }

  /** Commands of projects that were managed and are not named any more. */
  function Dropped(f: Fleet, environmentId: Uuid, all: set<Uuid>): set<Uuid> {
    set id | id in f.projects && f.projects[id].environmentId == environmentId && f.projects[id].managed && id !in all
  }

  function Committed(f: Fleet, environmentId: Uuid, all: set<Uuid>, now: int): Fleet
    requires environmentId in f.revisions
  {
    var dropped := Dropped(f, environmentId, all);
    f.(projects := map id | id in f.projects ::
         if f.projects[id].environmentId != environmentId then f.projects[id]
         else f.projects[id].(managed := id in all, published := f.projects[id].published || id in all),
       ledger := L.Invalidate(f.ledger, (set c | c in f.ledger.rows && f.ledger.rows[c].command.projectId in dropped),
                              now),
       revisions := f.revisions[environmentId := f.revisions[environmentId].(complete := true)],
       pages := f.pages[environmentId := []])
  }

  function ReceiveObservation(f: Fleet, environmentId: Uuid, sessionId: Uuid, v: Inventory, now: int): Option<Fleet> {
    var begun := BeginPage(f, environmentId, sessionId, v);
    if begun.None? || !Fresh(Rows(begun.value, environmentId), v) then None
    else
      var observed := ObservedAll(begun.value, environmentId, v.projects, now);
      if observed.None? || environmentId !in observed.value.revisions then None
      else
        var rows := Rows(begun.value, environmentId) + [Page(v.pageIndex, ProjectIds(v.projects))];
        var g := observed.value.(pages := observed.value.pages[environmentId := rows]);
        Some(if |rows| == v.pageCount then Committed(g, environmentId, SetOf(IdsOf(rows)), now) else g)
  }

  /** One authenticated heartbeat; a sequence already seen renews the session and nothing else. */
  function Observe(
    f: Fleet, environmentId: Uuid, agentId: Uuid, credential: nat, sessionId: Uuid, sequence: nat, v: Inventory,
    now: int)
    : Option<Fleet>
  {
    if !ValidInventory(v) then None
    else if !Authentic(f, environmentId, agentId, credential)
            || !Current(f, environmentId, agentId, sessionId, now) then None
    else
      var applies := sequence > f.sessions[environmentId].sequence;
      var received := if applies then ReceiveObservation(f, environmentId, sessionId, v, now) else Some(f);
      if received.None? || environmentId !in received.value.sessions
         || environmentId !in received.value.environments then None
      else
        var g := received.value;
        var s := g.sessions[environmentId];
        Some(g.(sessions := g.sessions[environmentId :=
                  s.(sequence := if applies then sequence else s.sequence, expiresAt := now + SESSION_LIFETIME_MS)],
                environments := g.environments[environmentId :=
                  g.environments[environmentId].(connection := Online, lastContact := Some(now))]))
  }

  // ----- what commands see of the projection -----

  predicate IsOnline(f: Fleet, environmentId: Uuid, now: int) {
    && environmentId in f.environments && environmentId in f.sessions
    && f.environments[environmentId].enrollment == Enrolled && f.environments[environmentId].connection == Online
    && f.environments[environmentId].lastContact.Some?
    && now < f.environments[environmentId].lastContact.value + SESSION_LIFETIME_MS
    && now < f.sessions[environmentId].expiresAt
  }

  /** Managed under the current enrollment, and not reported as unmanaged. */
  predicate IsManaged(f: Fleet, id: Uuid) {
    && id in f.projects
    && var p := f.projects[id];
    && p.managed && p.observation.Some? && !SaysUnmanaged(p.observation.value)
    && p.environmentId in f.credentials && p.agentId == f.credentials[p.environmentId].agentId
  }

  function ResolveTarget(f: Fleet, id: Uuid, now: int): Option<L.Target> {
    if id !in f.projects || f.projects[id].observation.None? then None
    else
      var p := f.projects[id];
      var session := if p.environmentId in f.sessions then Some(f.sessions[p.environmentId]) else None;
      var recent := IsOnline(f, p.environmentId, now) && session.Some? && p.agentId == session.value.agentId
                   && p.receivedAt.Some? && now < p.receivedAt.value + SESSION_LIFETIME_MS;
      Some(L.Target(
        p.environmentId, p.localProjectId,
        if session.Some? then session.value.agentId else 0, if session.Some? then session.value.sessionId else 0,
        IsManaged(f, id), recent, p.observation.value.validation.ValidProject?, true))
  }

  function PeersOf(f: Fleet, id: Uuid, now: int): L.Peers {
    var target := ResolveTarget(f, id, now);
    if target.None? then L.Peers(None, false, None)
    else
      var e := target.value.environmentId;
      L.Peers(
        target,
        e in f.environments && f.environments[e].enrollment == Enrolled,
        if e in f.credentials then Some(f.credentials[e].agentId) else None)
  }
}
