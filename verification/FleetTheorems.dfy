/** The promises of the inventory projection, in every run of the fleet. */
module FleetTheorems {
  import opened Prelude
  import opened Wire
  import opened F = Fleet
  import opened FleetRuns
  import opened FleetProofs
  import opened FleetObservation
  import FleetNaming
  import L = Ledger
  import P = LedgerProofs

  // ----- a heartbeat keeps everything -----

  lemma RepeatedBeatKeeps(s: Moment, id: Uuid, now: int)
    requires Inv(s) && id in s.fleet.sessions && id in s.fleet.environments
             && s.fleet.environments[id].enrollment == Enrolled
    ensures Inv(Moment(Renewed(s.fleet, id, s.fleet.sessions[id].sequence, now), s.history))
  {
    hide P.WellBehaved, EnvironmentInv, PagesInv, CommandInv, UniqueNames;
    var g := Renewed(s.fleet, id, s.fleet.sessions[id].sequence, now);
    SameRowsSameNames(s.fleet, g);
    forall e ensures EnvironmentInv(g, e) && PagesInv(g, e) && CommandInv(g, e) {
      RenewedKeeps(s.fleet, id, s.fleet.sessions[id].sequence, now, e);
    }
    forall e ensures ManagedInv(Moment(g, s.history), e) {
      assert ManagedInv(s, e) && ManagedIn(g, e) == ManagedIn(s.fleet, e);
    }
  }

  lemma AppliedHistory(s: Moment, r: Request, g: F.Fleet)
    requires HistoryInv(s) && Beats(s.fleet, r, g) && r.sequence > s.fleet.sessions[r.id].sequence
    requires PageReceived(s.fleet, r.id, r.sessionId, r.v,
                          ReceiveObservation(s.fleet, r.id, r.sessionId, r.v, r.now).value)
    ensures HistoryInv(Moment(g, Remembered(s, r, g)))
  {
    hide ReceiveObservation, Uploaded;
  }

  lemma AppliedSequence(s: Moment, r: Request, g: F.Fleet)
    requires HistoryInv(s) && SequenceInv(s) && Beats(s.fleet, r, g) && r.sequence > s.fleet.sessions[r.id].sequence
    ensures SequenceInv(Moment(g, Remembered(s, r, g)))
  {
    hide ReceiveObservation, Uploaded;
    var (f, h, t) := (s.fleet, s.history, Remembered(s, r, g));
    var applied := AppliedOf(h, r.sessionId);
    assert AppliedOf(t, r.sessionId) == applied + [r.sequence];
    assert forall id :: id != r.sessionId ==> AppliedOf(t, id) == AppliedOf(h, id);
    forall n | n in applied ensures n < r.sequence {
      assert n <= f.sessions[r.id].sequence;
    }
    forall i | 0 <= i < |applied| ensures applied[i] < r.sequence { assert applied[i] in applied; }
    forall id | id in g.sessions && id != r.id ensures g.sessions[id].sessionId != r.sessionId {
      assert g.sessions[id] == f.sessions[id];
    }
  }

  lemma AppliedManaged(s: Moment, r: Request, g: F.Fleet, e: Uuid)
    requires ManagedInv(s, e) && Beats(s.fleet, r, g) && r.sequence > s.fleet.sessions[r.id].sequence
    requires var o := ReceiveObservation(s.fleet, r.id, r.sessionId, r.v, r.now).value;
             PageReceived(s.fleet, r.id, r.sessionId, r.v, o) && (e == r.id ==> Shown(o, e))
    ensures ManagedInv(Moment(g, Remembered(s, r, g)), e)
  {
    hide ReceiveObservation, Uploaded;
    var o := ReceiveObservation(s.fleet, r.id, r.sessionId, r.v, r.now).value;
    assert ManagedIn(g, e) == ManagedIn(o, e);
  }

  lemma AppliedBeatKeeps(s: Moment, r: Request, g: F.Fleet)
    requires Inv(s) && Beats(s.fleet, r, g) && r.sequence > s.fleet.sessions[r.id].sequence
    ensures Inv(Moment(g, Remembered(s, r, g)))
  {
    hide P.WellBehaved, EnvironmentInv, PagesInv, CommandInv, ReceiveObservation, PageReceived, Shown, ManagedInv,
      HistoryInv, SequenceInv, Ready, ValidInventory, Remembered, UniqueNames, FleetNaming.SameNames;
    var f := s.fleet;
    var o := ReceiveObservation(f, r.id, r.sessionId, r.v, r.now).value;
    InvIsReady(s, r.id);
    ReceiveKeeps(f, r.id, r.sessionId, r.v, r.now);
    ReceiveLeavesSessions(f, r.id, r.sessionId, r.v, r.now);
    AppliedHistory(s, r, g);
    AppliedSequence(s, r, g);
    FleetNaming.ReceivingKeepsNames(f, r.id, r.sessionId, r.v, r.now);
    FleetNaming.SameNamesKeep(f, o);
    SameRowsSameNames(o, g);
    forall e ensures EnvironmentInv(g, e) && PagesInv(g, e) && CommandInv(g, e) {
      RenewedKeeps(o, r.id, r.sequence, r.now, e);
      assert EnvironmentInv(f, e) && PagesInv(f, e);
      EnvironmentDespiteProjection(f, o, e);
      if e != r.id { PageOfOthers(f, r.id, r.sessionId, r.v, o, e); }
    }
    forall e ensures ManagedInv(Moment(g, Remembered(s, r, g)), e) {
      assert ManagedInv(s, e);
      AppliedManaged(s, r, g, e);
    }
  }

  lemma EnvironmentDespiteProjection(f: F.Fleet, o: F.Fleet, e: Uuid)
    requires EnvironmentInv(f, e)
    requires o.sessions == f.sessions && o.environments == f.environments && o.credentials == f.credentials
             && o.tokens == f.tokens
    ensures EnvironmentInv(o, e)
  {
  }

  lemma ObserveStepKeeps(s: Moment, r: Request)
    requires Inv(s) && Admissible(s, r) && r.DoObserve?
    ensures Inv(Next(s, r))
  {
    hide Inv, Effect, ReceiveObservation;
    if Effect(s.fleet, r).Some? {
      var g := Effect(s.fleet, r).value;
      ObserveBeats(s, r);
      if r.sequence > s.fleet.sessions[r.id].sequence {
        AppliedBeatKeeps(s, r, g);
      } else {
        RepeatedBeatKeeps(s, r.id, r.now);
      }
    }
  }

  // ----- every run -----

  lemma NextKeepsInv(s: Moment, r: Request)
    requires Inv(s) && Admissible(s, r)
    ensures Inv(Next(s, r))
  {
    hide Inv, Next;
    match r
    case DoObserve(_, _, _, _, _, _, _) => ObserveStepKeeps(s, r);
    case DoIdentify(id, names, drawn) => IdentifyStepKeeps(s, id, names, drawn);
    case DoCommand(q) => CommandStepKeeps(s, q);
    case _ => EnrollmentStepKeeps(s, r);
  }

  /** The moments of one run, from an empty database. */
  ghost predicate Running(moments: seq<Moment>, requests: seq<Request>) {
    && |moments| == |requests| + 1
    && moments[0] == INITIAL
    && forall k :: 0 <= k < |requests| ==>
       Admissible(moments[k], requests[k]) && moments[k + 1] == Next(moments[k], requests[k])
  }

  lemma InitialInv()
    ensures Inv(INITIAL)
  {
    assert forall e :: L.ActiveIn(L.EMPTY, e) == {};
    assert forall e :: ManagedIn(NO_FLEET, e) == {};
    assert forall e :: Rows(NO_FLEET, e) == [] && IdsOf([]) == [];
  }

  lemma {:induction false} RunKeepsInv(moments: seq<Moment>, requests: seq<Request>, k: nat)
    requires Running(moments, requests) && k < |moments|
    ensures Inv(moments[k])
  {
    hide Inv, Admissible, Next;
    if k == 0 {
      InitialInv();
    } else {
      RunKeepsInv(moments, requests, k - 1);
      assert Admissible(moments[k - 1], requests[k - 1]) && moments[k] == Next(moments[k - 1], requests[k - 1]);
      NextKeepsInv(moments[k - 1], requests[k - 1]);
    }
  }

  // ----- main results -----

  /** Every accepted command targets a project that is managed under the enrolled agent and not reported as
      unmanaged. */
  lemma AcceptedCommandsTargetManagedProjects(moments: seq<Moment>, requests: seq<Request>, k: nat, c: Uuid)
    requires Running(moments, requests) && k < |moments|
    requires c in moments[k].fleet.ledger.rows && moments[k].fleet.ledger.rows[c].state == Accepted
    ensures var (f, target) := (moments[k].fleet, moments[k].fleet.ledger.rows[c].command);
            && target.projectId in f.projects
            && var p := f.projects[target.projectId];
            && p.managed && p.environmentId == target.environmentId && p.localProjectId == target.localProjectId
            && p.environmentId in f.environments && f.environments[p.environmentId].enrollment == Enrolled
            && p.environmentId in f.credentials && p.agentId == f.credentials[p.environmentId].agentId
            && p.observation.Some? && p.observation.value.validation != InvalidProject(ProjectUnmanaged)
  {
    RunKeepsInv(moments, requests, k);
    CommandOf(moments[k], c);
    EnvironmentOf(moments[k], moments[k].fleet.ledger.rows[c].command.environmentId);
  }

  lemma CommandOf(s: Moment, c: Uuid)
    requires Inv(s)
    ensures CommandInv(s.fleet, c)
  {
  }

  lemma EnvironmentOf(s: Moment, id: Uuid)
    requires Inv(s)
    ensures EnvironmentInv(s.fleet, id)
  {
  }

  /** The managed projects of an environment are always those of the last revision received completely. */
  lemma ManagedIsTheLastRevision(moments: seq<Moment>, requests: seq<Request>, k: nat, id: Uuid)
    requires Running(moments, requests) && k < |moments|
    ensures ManagedIn(moments[k].fleet, id) == CompletedOf(moments[k].history, id)
    ensures |ManagedIn(moments[k].fleet, id)| <= MANAGED_PROJECTS_PER_AGENT
  {
    RunKeepsInv(moments, requests, k);
    assert ManagedInv(moments[k], id);
  }

  /** Only a page that completes its revision changes what is managed, and it arrives
      after every other page of the revision, each exactly once. */
  lemma OnlyCompletionChangesManaged(moments: seq<Moment>, requests: seq<Request>, k: nat, id: Uuid)
    requires Running(moments, requests) && k < |requests|
    requires CompletedOf(moments[k + 1].history, id) != CompletedOf(moments[k].history, id)
    ensures var (r, f) := (requests[k], moments[k].fleet);
            && r.DoObserve? && r.id == id && id in f.sessions && r.sequence > f.sessions[id].sequence
            && CompletedOf(moments[k + 1].history, id) == Uploaded(f, id, r.sessionId, r.v)
            && var rows := (if F.Continues(f, id, r.sessionId, r.v) then Rows(f, id) else [])
                           + [Page(r.v.pageIndex, ProjectIds(r.v.projects))];
            && |rows| == r.v.pageCount
            && forall i :: 0 <= i < r.v.pageCount ==> ArrivedOnce(rows, i)
  {
    hide Inv, ReceiveObservation, Uploaded;
    RunKeepsInv(moments, requests, k);
    var (s, r) := (moments[k], requests[k]);
    assert Admissible(s, r) && moments[k + 1] == Next(s, r);
    assert r.DoObserve? && r.id == id && Effect(s.fleet, r).Some?;
    ObserveBeats(s, r);
    InvIsReady(s, id);
    var o := ReceiveObservation(s.fleet, id, r.sessionId, r.v, r.now).value;
    CompleteMeansAll(s.fleet, id, r.sessionId, r.v, r.now);
  }

  lemma CompleteMeansAll(f: F.Fleet, id: Uuid, sessionId: Uuid, v: Inventory, now: int)
    requires Ready(f, id, sessionId) && ValidInventory(v) && ReceiveObservation(f, id, sessionId, v, now).Some?
    requires id in ReceiveObservation(f, id, sessionId, v, now).value.revisions
    requires ReceiveObservation(f, id, sessionId, v, now).value.revisions[id].complete
    ensures var rows := (if F.Continues(f, id, sessionId, v) then Rows(f, id) else [])
            + [Page(v.pageIndex, ProjectIds(v.projects))];
            && |rows| == v.pageCount
            && forall i :: 0 <= i < v.pageCount ==> ArrivedOnce(rows, i)
  {
    hide ReceiveObservation, Ready, ValidInventory, BeginPage, IdsOf;
    var g, stored := PageStored(f, id, sessionId, v, now);
    ReceiveBegins(f, id, sessionId, v, now);
    ReadyPages(f, id, sessionId);
    BegunPage(f, id, sessionId, v);
    StoredIs(f, id, sessionId, v, now, g, stored);
    forall i | 0 <= i < v.pageCount ensures ArrivedOnce(stored, i) { AllPagesArrived(stored, v.pageCount, i); }
  }

  lemma ReadyPages(f: F.Fleet, id: Uuid, sessionId: Uuid)
    requires Ready(f, id, sessionId)
    ensures PagesInv(f, id)
  {
  }

  lemma StoredIs(f: F.Fleet, id: Uuid, sessionId: Uuid, v: Inventory, now: int, g: F.Fleet, stored: seq<Page>)
    requires BeginPage(f, id, sessionId, v).Some? && ReceiveObservation(f, id, sessionId, v, now).Some?
    requires Rows(g, id) == stored && id in g.revisions && !g.revisions[id].complete
    requires ReceiveObservation(f, id, sessionId, v, now)
             == Some(if |stored| == v.pageCount then Committed(g, id, SetOf(IdsOf(stored)), now) else g)
    ensures id in ReceiveObservation(f, id, sessionId, v, now).value.revisions
    ensures ReceiveObservation(f, id, sessionId, v, now).value.revisions[id].complete ==> |stored| == v.pageCount
  {
    hide ReceiveObservation;
  }

  /** Each issued token yields at most one enrollment. */
  lemma TokensAreRedeemedOnce(moments: seq<Moment>, requests: seq<Request>, i: nat, j: nat)
    requires Running(moments, requests) && i < j < |requests|
    requires requests[i].DoEnroll? && moments[i + 1] != moments[i] && requests[j].DoEnroll?
             && moments[j + 1] != moments[j]
    ensures requests[i].verifier != requests[j].verifier
  {
    hide Inv;
    RunKeepsInv(moments, requests, j);
    assert Admissible(moments[i], requests[i]) && moments[i + 1] == Next(moments[i], requests[i]);
    assert Admissible(moments[j], requests[j]) && moments[j + 1] == Next(moments[j], requests[j]);
    RedeemedStays(moments, requests, i + 1, j, requests[i].verifier);
    Unredeemed(moments[j], requests[j].id);
  }

  lemma Unredeemed(s: Moment, id: Uuid)
    requires Inv(s) && id in s.fleet.tokens
    ensures s.fleet.tokens[id].verifier !in s.history.redeemed
  {
  }

  lemma {:induction false} RedeemedStays(moments: seq<Moment>, requests: seq<Request>, i: nat, j: nat, verifier: nat)
    requires Running(moments, requests) && i <= j < |moments| && verifier in moments[i].history.redeemed
    ensures verifier in moments[j].history.redeemed
  {
    if i < j {
      RedeemedStays(moments, requests, i, j - 1, verifier);
      assert Admissible(moments[j - 1], requests[j - 1]) && moments[j] == Next(moments[j - 1], requests[j - 1]);
    }
  }

  /** In every reachable fleet a credential exists exactly while enrolled, a session is
      the enrolled agent's, online means heard from, and a session's observations were
      applied in strictly increasing order. */
  lemma EnrollmentAndSessionsAreFenced(moments: seq<Moment>, requests: seq<Request>, k: nat, id: Uuid)
    requires Running(moments, requests) && k < |moments|
    ensures var (f, h) := (moments[k].fleet, moments[k].history);
            && (id in f.credentials <==> id in f.environments && f.environments[id].enrollment == Enrolled)
            && (id in f.sessions ==> id in f.credentials && f.sessions[id].agentId == f.credentials[id].agentId)
            && (id in f.environments && f.environments[id].connection == Online ==>
                  f.environments[id].enrollment == Enrolled && f.environments[id].lastContact.Some?)
            && (id in f.environments && f.environments[id].enrollment == Revoked ==>
                f.environments[id].connection == Offline)
            && forall i, j :: 0 <= i < j < |AppliedOf(h, id)| ==> AppliedOf(h, id)[i] < AppliedOf(h, id)[j]
  {
    RunKeepsInv(moments, requests, k);
    assert EnvironmentInv(moments[k].fleet, id);
  }

  /** A session row changes hands only when it has run out; revocation removes it. */
  lemma LiveSessionsAreNotReplaced(moments: seq<Moment>, requests: seq<Request>, k: nat, id: Uuid)
    requires Running(moments, requests) && k < |requests|
    requires id in moments[k].fleet.sessions && id in moments[k + 1].fleet.sessions
    requires moments[k + 1].fleet.sessions[id].sessionId != moments[k].fleet.sessions[id].sessionId
    ensures requests[k].DoOpen? && requests[k].id == id && moments[k].fleet.sessions[id].expiresAt <= requests[k].now
    ensures moments[k + 1].fleet.sessions[id].sessionId !in moments[k].history.sessionIds
  {
    hide Inv, ReceiveObservation, IdentifyProjects, L.Next;
    var (s, r) := (moments[k], requests[k]);
    assert Admissible(s, r) && moments[k + 1] == Next(s, r);
    RunKeepsInv(moments, requests, k);
    if r.DoObserve? && Effect(s.fleet, r).Some? {
      ObserveBeats(s, r);
    } else if r.DoIdentify? && IdentifyProjects(s.fleet, r.id, r.names, r.drawn).Some? {
      IdentifyOnlyNames(s.fleet, r.id, r.names, r.drawn);
    }
  }

  /** At every moment of every run each enrollment has one row for each local name, and asking
      again for names gives the same identifiers and changes nothing, whatever would be drawn. */
  lemma IdentifiersStayStable(
    moments: seq<Moment>, requests: seq<Request>, k: nat, id: Uuid, names: seq<string>, drawn: seq<Uuid>,
    again: seq<Uuid>)
    requires Running(moments, requests) && k < |moments| && |drawn| == |names| == |again|
    ensures UniqueNames(moments[k].fleet)
    ensures IdentifyProjects(moments[k].fleet, id, names, drawn).Some? ==>
              var (f, n) := (moments[k].fleet, IdentifyProjects(moments[k].fleet, id, names, drawn).value);
              && id in f.credentials && FleetNaming.Answers(n, id, f.credentials[id].agentId, names)
              && IdentifyProjects(n.fleet, id, names, again).Some?
              && IdentifyProjects(n.fleet, id, names, again).value.ids == n.ids
              && IdentifyProjects(n.fleet, id, names, again).value.fleet == n.fleet
  {
    hide IdentifyProjects, UniqueNames, FleetNaming.Answers, EnvironmentInv, HistoryInv, SequenceInv, PagesInv,
      ManagedInv, CommandInv;
    RunKeepsInv(moments, requests, k);
    if IdentifyProjects(moments[k].fleet, id, names, drawn).Some? {
      FleetNaming.IdentifiersAreStable(moments[k].fleet, id, names, drawn, again);
    }
  }
}
