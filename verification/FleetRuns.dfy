/** What every run of enrollment, sessions, projection and ledger together keeps. */
module FleetRuns {
  import opened Prelude
  import opened Wire
  import opened F = Fleet
  import L = Ledger
  import P = LedgerProofs

  /** What was ever drawn or happened, to state properties of whole runs. */
  datatype History = History(
    verifiers: set<nat>, agents: set<Uuid>, sessionIds: set<Uuid>,
    redeemed: seq<nat>, applied: map<Uuid, seq<nat>>, completed: map<Uuid, set<Uuid>>)

  datatype Moment = Moment(fleet: F.Fleet, history: History)

  const INITIAL := Moment(NO_FLEET, History({}, {}, {}, [], map[], map[]))

  datatype Request =
    | DoCreate(id: Uuid, verifier: nat, now: int)
    | DoRegenerate(id: Uuid, verifier: nat, now: int)
    | DoEnroll(id: Uuid, verifier: nat, agentId: Uuid, credential: nat, now: int)
    | DoRevoke(id: Uuid, now: int)
    | DoOpen(id: Uuid, agentId: Uuid, credential: nat, sessionId: Uuid, now: int)
    | DoObserve(id: Uuid, agentId: Uuid, credential: nat, sessionId: Uuid, sequence: nat, v: Inventory, now: int)
    | DoExpire(now: int)
    | DoRestart(now: int)
    | DoIdentify(id: Uuid, names: seq<string>, drawn: seq<Uuid>)
    | DoCommand(q: L.Request)

  /** Drawn identifiers are new; commands see the projection; invalidation happens only inside other requests. */
  ghost predicate Admissible(s: Moment, r: Request) {
    match r
    case DoCreate(_, verifier, _) => verifier !in s.history.verifiers
    case DoRegenerate(_, verifier, _) => verifier !in s.history.verifiers
    case DoEnroll(_, _, agentId, _, _) => agentId !in s.history.agents
    case DoOpen(_, _, _, sessionId, _) => sessionId !in s.history.sessionIds
    case DoIdentify(_, names, drawn) => |drawn| == |names|
    case DoCommand(q) =>
      && P.Admissible(s.fleet.ledger, q) && !q.DoInvalidateEnvironment? && !q.DoInvalidateProject?
      && (q.DoSubmit? ==> q.peers == PeersOf(s.fleet, q.projectId, q.now))
    case _ => true
  }

  function AppliedOf(h: History, sessionId: Uuid): seq<nat> {
    if sessionId in h.applied then h.applied[sessionId] else []
  }

  function CompletedOf(h: History, id: Uuid): set<Uuid> { if id in h.completed then h.completed[id] else {} }

  /** The identifiers on all pages of the revision this page belongs to. */
  function Uploaded(f: F.Fleet, id: Uuid, sessionId: Uuid, v: Inventory): set<Uuid> {
    SetOf(ProjectIds(v.projects)) + if F.Continues(f, id, sessionId, v) then SetOf(IdsOf(Rows(f, id))) else {}
  }

  ghost function Remembered(s: Moment, r: Request, g: F.Fleet): History
    requires Admissible(s, r)
  {
    var h := s.history;
    match r
    case DoCreate(_, verifier, _) => h.(verifiers := h.verifiers + {verifier})
    case DoRegenerate(_, verifier, _) => h.(verifiers := h.verifiers + {verifier})
    case DoEnroll(_, verifier, agentId, _, _) => h.(agents := h.agents + {agentId}, redeemed := h.redeemed + [verifier])
    case DoOpen(_, _, _, sessionId, _) => h.(sessionIds := h.sessionIds + {sessionId})
    case DoObserve(id, _, _, sessionId, sequence, v, _) =>
      if id in s.fleet.sessions && sequence > s.fleet.sessions[id].sequence then
        h.(applied := h.applied[sessionId := AppliedOf(h, sessionId) + [sequence]],
           completed := if id in g.revisions && g.revisions[id].complete
             then h.completed[id := Uploaded(s.fleet, id, sessionId, v)] else h.completed)
      else h
    case _ => h
  }

  ghost function Effect(f: F.Fleet, r: Request): Option<F.Fleet>
    requires r.DoIdentify? ==> |r.drawn| == |r.names|
  {
    match r
    case DoCreate(id, verifier, now) => CreateEnvironment(f, id, verifier, now)
    case DoRegenerate(id, verifier, now) => Regenerate(f, id, verifier, now)
    case DoEnroll(id, verifier, agentId, credential, now) => Enroll(f, id, verifier, agentId, credential, now)
    case DoRevoke(id, now) => Revoke(f, id, now)
    case DoOpen(id, agentId, credential, sessionId, now) => OpenSession(f, id, agentId, credential, sessionId, now)
    case DoObserve(id, agentId, credential, sessionId, sequence, v, now) =>
      Observe(f, id, agentId, credential, sessionId, sequence, v, now)
    case DoExpire(now) => Some(ExpireSessions(f, now))
    case DoRestart(now) => Some(F.Restart(f, now))
    case DoIdentify(id, names, drawn) =>
      var n := IdentifyProjects(f, id, names, drawn);
      if n.None? then None else Some(n.value.fleet)
    case DoCommand(q) => Some(f.(ledger := L.Next(f.ledger, q)))
  }

  ghost function Next(s: Moment, r: Request): Moment
    requires Admissible(s, r)
  {
    var g := Effect(s.fleet, r);
    if g.None? then s else Moment(g.value, Remembered(s, r, g.value))
  }

  // ----- the invariants -----

  /** A credential exists exactly while enrolled, a token exactly while pending; a
      session belongs to the enrolled agent; online means enrolled and heard from. */
  ghost predicate EnvironmentInv(f: F.Fleet, id: Uuid) {
    && (id in f.credentials <==> id in f.environments && f.environments[id].enrollment == Enrolled)
    && (id in f.tokens <==> id in f.environments && f.environments[id].enrollment == Pending)
    && (id in f.sessions ==> id in f.credentials && f.sessions[id].agentId == f.credentials[id].agentId)
    && (id in f.environments && f.environments[id].connection == Online ==>
          f.environments[id].enrollment == Enrolled && f.environments[id].lastContact.Some?)
    && (id in f.environments && f.environments[id].enrollment == Revoked ==> f.environments[id].connection == Offline)
  }

  /** Nothing drawn is ever drawn again, and no redeemed token is still out. */
  ghost predicate HistoryInv(s: Moment) {
    var (f, h) := (s.fleet, s.history);
    && (forall id :: id in f.tokens ==> f.tokens[id].verifier in h.verifiers && f.tokens[id].verifier !in h.redeemed)
    && (forall i, j | i in f.tokens && j in f.tokens && f.tokens[i].verifier == f.tokens[j].verifier :: i == j)
    && (forall v :: v in h.redeemed ==> v in h.verifiers)
    && (forall i, j :: 0 <= i < j < |h.redeemed| ==> h.redeemed[i] != h.redeemed[j])
    && (forall id :: id in f.credentials ==> f.credentials[id].agentId in h.agents)
    && (forall id :: id in f.sessions ==> f.sessions[id].sessionId in h.sessionIds)
    && (forall i, j | i in f.sessions && j in f.sessions && f.sessions[i].sessionId == f.sessions[j].sessionId ::
        i == j)
    && (forall id :: id in f.revisions ==> f.revisions[id].sessionId in h.sessionIds)
    && (forall id :: id in h.applied ==> id in h.sessionIds)
  }

  /** Observations of a session were applied in strictly increasing order, none beyond what the session shows. */
  ghost predicate SequenceInv(s: Moment) {
    && (forall id, i, j | 0 <= i < j < |AppliedOf(s.history, id)| ::
        AppliedOf(s.history, id)[i] < AppliedOf(s.history, id)[j])
    && (forall id :: id in s.fleet.sessions ==>
          forall n :: n in AppliedOf(s.history, s.fleet.sessions[id].sessionId) ==> n <= s.fleet.sessions[id].sequence)
  }

  ghost predicate DistinctIds(ids: seq<Uuid>) { forall i, j :: 0 <= i < j < |ids| ==> ids[i] != ids[j] }

  /** A revision under way holds fewer pages than it has, each once, with distinct projects of its own session's
      agent. */
  ghost predicate PagesInv(f: F.Fleet, id: Uuid) {
    var rows := Rows(f, id);
    && (rows != [] ==> id in f.revisions && !f.revisions[id].complete && |rows| < f.revisions[id].pageCount)
    && (forall k :: 0 <= k < |rows| ==> rows[k].index < f.revisions[id].pageCount)
    && (forall i, j :: 0 <= i < j < |rows| ==> rows[i].index != rows[j].index)
    && DistinctIds(IdsOf(rows)) && |IdsOf(rows)| <= MANAGED_PROJECTS_PER_AGENT
    && (id in f.sessions && id in f.revisions && f.sessions[id].sessionId == f.revisions[id].sessionId ==>
          forall p :: p in IdsOf(rows) ==> Uploads(f, p, id, f.sessions[id].agentId))
  }

  /** This agent named the project and has sent an observation of it. */
  predicate Uploads(f: F.Fleet, p: Uuid, id: Uuid, agentId: Uuid) {
    p in f.projects && f.projects[p].environmentId == id && f.projects[p].agentId == agentId
      && f.projects[p].observation.Some?
  }

  function ManagedIn(f: F.Fleet, id: Uuid): set<Uuid> {
    set p | p in f.projects && f.projects[p].environmentId == id && f.projects[p].managed
  }

  /** The managed projects are those of the last revision received completely, at most a hundred. */
  ghost predicate ManagedInv(s: Moment, id: Uuid) {
    && ManagedIn(s.fleet, id) == CompletedOf(s.history, id)
    && |CompletedOf(s.history, id)| <= MANAGED_PROJECTS_PER_AGENT
    && forall p :: p in ManagedIn(s.fleet, id) ==>
       s.fleet.projects[p].published && s.fleet.projects[p].observation.Some?
  }

  /** An unclaimed command targets a project that is still managed as it was when submitted. */
  ghost predicate CommandInv(f: F.Fleet, c: Uuid) {
    c in f.ledger.rows && f.ledger.rows[c].state == Accepted ==>
      var k := f.ledger.rows[c].command;
      && IsManaged(f, k.projectId)
      && f.projects[k.projectId].environmentId == k.environmentId
      && f.projects[k.projectId].localProjectId == k.localProjectId
  }

  ghost predicate Inv(s: Moment) {
    && P.WellBehaved(s.fleet.ledger)
    && (forall id :: EnvironmentInv(s.fleet, id))
    && HistoryInv(s) && SequenceInv(s)
    && F.UniqueNames(s.fleet)
    && (forall id :: PagesInv(s.fleet, id))
    && (forall id :: ManagedInv(s, id))
    && (forall c :: CommandInv(s.fleet, c))
  }
}
