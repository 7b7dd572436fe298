/** Each operation of the fleet keeps the invariants. */
module FleetProofs {
  import opened Prelude
  import opened Wire
  import opened F = Fleet
  import opened FleetRuns
  import FleetNaming
  import L = Ledger
  import P = LedgerProofs

  // ----- enrollment and sessions -----

  lemma EnvironmentKept(s: Moment, r: Request, id: Uuid)
    requires Admissible(s, r) && !r.DoObserve? && !r.DoIdentify? && !r.DoCommand?
    requires EnvironmentInv(s.fleet, id)
    ensures EnvironmentInv(Next(s, r).fleet, id)
  {
  }

  lemma HistoryKept(s: Moment, r: Request)
    requires Admissible(s, r) && !r.DoObserve? && !r.DoIdentify? && !r.DoCommand?
    requires HistoryInv(s)
    ensures HistoryInv(Next(s, r))
  {
    hide L.InvalidateEnvironment;
  }

  /** Sessions are the earlier ones at the same sequence, or new. */
  ghost predicate SameSequences(s: Moment, t: Moment) {
    && t.history.applied == s.history.applied
    && forall id :: id in t.fleet.sessions ==>
         t.fleet.sessions[id].sessionId !in s.history.sessionIds
         || (id in s.fleet.sessions && t.fleet.sessions[id].sessionId == s.fleet.sessions[id].sessionId
             && t.fleet.sessions[id].sequence == s.fleet.sessions[id].sequence)
  }

  lemma SequencesStay(s: Moment, t: Moment)
    requires HistoryInv(s) && SequenceInv(s) && SameSequences(s, t)
    ensures SequenceInv(t)
  {
    assert forall id :: AppliedOf(t.history, id) == AppliedOf(s.history, id);
    forall id | id in t.fleet.sessions
      ensures forall n :: n in AppliedOf(t.history, t.fleet.sessions[id].sessionId) ==>
              n <= t.fleet.sessions[id].sequence
    {
      if t.fleet.sessions[id].sessionId !in s.history.sessionIds {
        assert AppliedOf(t.history, t.fleet.sessions[id].sessionId) == [];
      }
    }
  }

  lemma SequenceKept(s: Moment, r: Request)
    requires Admissible(s, r) && !r.DoObserve? && !r.DoIdentify? && !r.DoCommand?
    requires HistoryInv(s) && SequenceInv(s)
    ensures SequenceInv(Next(s, r))
  {
    hide L.InvalidateEnvironment, HistoryInv, SequenceInv;
    SequencesStay(s, Next(s, r));
  }

  /** The projection stayed, and no session row took over the name of another. */
  ghost predicate SameProjection(s: Moment, g: F.Fleet) {
    var f := s.fleet;
    && g.projects == f.projects && g.revisions == f.revisions && g.pages == f.pages
    && forall id :: id in g.sessions ==>
         g.sessions[id].sessionId !in s.history.sessionIds
         || (id in f.sessions && g.sessions[id].sessionId == f.sessions[id].sessionId
             && g.sessions[id].agentId == f.sessions[id].agentId)
  }

  lemma PagesKept(s: Moment, g: F.Fleet, id: Uuid)
    requires HistoryInv(s) && SameProjection(s, g) && PagesInv(s.fleet, id)
    ensures PagesInv(g, id)
  {
    assert Rows(g, id) == Rows(s.fleet, id);
  }

  lemma EnrollmentStepsKeepProjection(s: Moment, r: Request)
    requires Admissible(s, r) && !r.DoObserve? && !r.DoIdentify? && !r.DoCommand?
    ensures SameProjection(s, Next(s, r).fleet) && Next(s, r).history.completed == s.history.completed
  {
  }

  /** The later ledger holds no unclaimed command that the earlier one did not hold unclaimed. */
  ghost predicate NoNewAccepted(l: L.Ledger, m: L.Ledger) {
    forall c :: c in m.rows && m.rows[c].state == Accepted ==>
      c in l.rows && l.rows[c].state == Accepted && l.rows[c].command == m.rows[c].command
  }

  lemma ShrinkingAddsNoAccepted(l: L.Ledger, m: L.Ledger)
    requires P.Shrinks(l, m)
    ensures NoNewAccepted(l, m)
  {
  }

  lemma CommandsKept(f: F.Fleet, r: Request, g: F.Fleet, c: Uuid)
    requires r.DoCreate? || r.DoRegenerate? || r.DoEnroll? || r.DoOpen? || r.DoExpire? || r.DoRestart?
    requires Effect(f, r) == Some(g) && CommandInv(f, c)
    ensures CommandInv(g, c)
  {
  }

  lemma RevocationClears(f: F.Fleet, id: Uuid, now: int, g: F.Fleet, c: Uuid)
    requires F.Revoke(f, id, now) == Some(g) && CommandInv(f, c)
    ensures CommandInv(g, c)
  {
  }

  lemma ManagedKept(s: Moment, t: Moment, id: Uuid)
    requires ManagedInv(s, id) && t.fleet.projects == s.fleet.projects && t.history.completed == s.history.completed
    ensures ManagedInv(t, id)
  {
    assert ManagedIn(t.fleet, id) == ManagedIn(s.fleet, id);
  }

  lemma EnrollmentStepKeeps(s: Moment, r: Request)
    requires Inv(s) && Admissible(s, r) && !r.DoObserve? && !r.DoIdentify? && !r.DoCommand?
    ensures Inv(Next(s, r))
  {
    hide EnvironmentInv, HistoryInv, SequenceInv, PagesInv, ManagedInv, CommandInv, P.WellBehaved, Next, SameProjection,
      UniqueNames;
    var t := Next(s, r);
    HistoryKept(s, r);
    SequenceKept(s, r);
    EnrollmentStepsKeepProjection(s, r);
    ProjectionParts(s, t.fleet);
    SameRowsSameNames(s.fleet, t.fleet);
    forall id ensures EnvironmentInv(t.fleet, id) { EnvironmentKept(s, r, id); }
    forall id ensures PagesInv(t.fleet, id) { PagesKept(s, t.fleet, id); }
    forall id ensures ManagedInv(t, id) { ManagedKept(s, t, id); }
    EnrollmentLedger(s, r);
    forall c ensures CommandInv(t.fleet, c) { EnrollmentCommands(s, r, c); }
  }

  lemma ProjectionParts(s: Moment, g: F.Fleet)
    requires SameProjection(s, g)
    ensures g.projects == s.fleet.projects
  {
  }

  lemma SameRowsSameNames(f: F.Fleet, g: F.Fleet)
    requires g.projects == f.projects && UniqueNames(f)
    ensures UniqueNames(g)
  {
  }

  lemma EnrollmentLedger(s: Moment, r: Request)
    requires P.WellBehaved(s.fleet.ledger) && Admissible(s, r) && !r.DoObserve? && !r.DoIdentify? && !r.DoCommand?
    ensures P.WellBehaved(Next(s, r).fleet.ledger)
  {
    hide P.WellBehaved;
    if r.DoRevoke? { P.NextKeeps(s.fleet.ledger, L.DoInvalidateEnvironment(r.id, r.now)); }
  }

  lemma EnrollmentCommands(s: Moment, r: Request, c: Uuid)
    requires Admissible(s, r) && !r.DoObserve? && !r.DoIdentify? && !r.DoCommand? && CommandInv(s.fleet, c)
    ensures CommandInv(Next(s, r).fleet, c)
  {
    hide CommandInv;
    var g := Effect(s.fleet, r);
    if g.Some? {
      if r.DoRevoke? {
        RevocationClears(s.fleet, r.id, r.now, g.value, c);
      } else {
        CommandsKept(s.fleet, r, g.value, c);
      }
    }
  }

  // ----- commands -----

  lemma CommandKeepsOthers(f: F.Fleet, m: L.Ledger, c: Uuid)
    requires forall d :: CommandInv(f, d)
    requires NoNewAccepted(f.ledger, m)
    ensures CommandInv(f.(ledger := m), c)
  {
    assert CommandInv(f, c);
  }

  lemma AdmittedIsManaged(f: F.Fleet, q: L.Request)
    requires q.DoSubmit? && q.peers == PeersOf(f, q.projectId, q.now) && L.TargetRefusal(q.peers, q.operation).None?
    ensures q.peers.target.Some? && IsManaged(f, q.projectId)
    ensures f.projects[q.projectId].environmentId == q.peers.target.value.environmentId
    ensures f.projects[q.projectId].localProjectId == q.peers.target.value.localProjectId
  {
  }

  /** A submission is accepted only for what the projection shows as managed. */
  lemma SubmissionTargetsManaged(f: F.Fleet, q: L.Request, c: Uuid)
    requires P.WellBehaved(f.ledger) && q.DoSubmit? && P.Admissible(f.ledger, q)
             && q.peers == PeersOf(f, q.projectId, q.now)
    requires forall d :: CommandInv(f, d)
    ensures CommandInv(f.(ledger := L.Next(f.ledger, q)), c)
  {
    hide P.WellBehaved, L.Submit, IsManaged, L.Recover, L.TargetRefusal, PeersOf;
    P.SubmitCases(f.ledger, q.id, q.projectId, q.key, q.operation, q.peers, q.now);
    if P.Admits(f.ledger, q.projectId, q.key, q.operation, q.peers, q.now) {
      AdmittedIsManaged(f, q);
      RecoverAddsNoAccepted(f.ledger, q.now);
      if c == q.id {
        var k := L.Next(f.ledger, q).rows[c].command;
        assert k.projectId == q.projectId && k.environmentId == q.peers.target.value.environmentId
               && k.localProjectId == q.peers.target.value.localProjectId;
        assert IsManaged(f.(ledger := L.Next(f.ledger, q)), q.projectId) by {
          ManagedDespiteLedger(f, L.Next(f.ledger, q), q.projectId);
        }
      } else {
        CommandKeepsOthers(f, L.Recover(f.ledger, q.now), c);
        ManagedDespiteLedgers(f, L.Recover(f.ledger, q.now), L.Next(f.ledger, q));
      }
    } else {
      assert CommandInv(f, c);
    }
  }

  lemma ManagedDespiteLedger(f: F.Fleet, m: L.Ledger, id: Uuid)
    ensures IsManaged(f.(ledger := m), id) == IsManaged(f, id)
  {
  }

  lemma ManagedDespiteLedgers(f: F.Fleet, m: L.Ledger, n: L.Ledger)
    ensures forall id :: IsManaged(f.(ledger := m), id) == IsManaged(f.(ledger := n), id)
  {
  }

  lemma RecoverAddsNoAccepted(l: L.Ledger, now: int)
    requires P.WellBehaved(l)
    ensures NoNewAccepted(l, L.Recover(l, now))
  {
    P.RecoverShrinks(l, now);
  }

  lemma CommandStepKeeps(s: Moment, q: L.Request)
    requires Inv(s) && Admissible(s, DoCommand(q))
    ensures Inv(Next(s, DoCommand(q)))
  {
    hide EnvironmentInv, HistoryInv, SequenceInv, PagesInv, ManagedInv, CommandInv, P.WellBehaved, L.Next, UniqueNames;
    var (f, l) := (s.fleet, s.fleet.ledger);
    var m := L.Next(l, q);
    P.NextKeeps(l, q);
    CommandLeavesRest(s, f.(ledger := m));
    SameRowsSameNames(f, f.(ledger := m));
    forall c ensures CommandInv(f.(ledger := m), c) {
      if q.DoSubmit? {
        SubmissionTargetsManaged(f, q, c);
      } else {
        OtherCommandsAddNone(l, q);
        CommandKeepsOthers(f, m, c);
      }
    }
  }

  lemma OtherCommandsAddNone(l: L.Ledger, q: L.Request)
    requires P.WellBehaved(l) && P.Admissible(l, q) && !q.DoSubmit?
    ensures NoNewAccepted(l, L.Next(l, q))
  {
    hide L.Next;
    P.NextShrinks(l, q);
    ShrinkingAddsNoAccepted(l, L.Next(l, q));
  }

  /** A ledger that changes leaves enrollment, sessions and projection as they are. */
  lemma CommandLeavesRest(s: Moment, g: F.Fleet)
    requires g == s.fleet.(ledger := g.ledger)
    requires HistoryInv(s) && SequenceInv(s)
    requires forall id :: EnvironmentInv(s.fleet, id)
    requires forall id :: PagesInv(s.fleet, id)
    requires forall id :: ManagedInv(s, id)
    ensures var t := Moment(g, s.history);
            && HistoryInv(t) && SequenceInv(t)
            && (forall id :: EnvironmentInv(g, id)) && (forall id :: PagesInv(g, id)) && forall id :: ManagedInv(t, id)
  {
    var t := Moment(g, s.history);
    forall id ensures EnvironmentInv(g, id) { assert EnvironmentInv(s.fleet, id); }
    forall id ensures PagesInv(g, id) { PagesKept(s, g, id); }
    forall id ensures ManagedInv(t, id) { ManagedKept(s, t, id); }
  }

  // ----- naming projects -----

  /** Rows that are published, named by this agent or of other environments stay; new rows are bare. */
  ghost predicate OnlyNames(f: F.Fleet, g: F.Fleet, id: Uuid, agentId: Uuid) {
    && g == f.(projects := g.projects)
    && (forall p | p in f.projects ::
          f.projects[p].published || f.projects[p].agentId == agentId || f.projects[p].environmentId != id ==>
          p in g.projects && g.projects[p] == f.projects[p])
    && (forall p :: p in g.projects ==> (p in f.projects && g.projects[p] == f.projects[p]) || !g.projects[p].managed)
  }

  lemma NamingOnlyNames(f: F.Fleet, n: Naming, id: Uuid, agentId: Uuid, name: string, drawn: Uuid)
    requires OnlyNames(f, n.fleet, id, agentId) && NameOne(n, id, agentId, name, drawn).Some?
    ensures OnlyNames(f, NameOne(n, id, agentId, name, drawn).value.fleet, id, agentId)
  {
  }

  lemma {:induction false} NamingAllOnlyNames(
    f: F.Fleet, n: Naming, id: Uuid, agentId: Uuid, names: seq<string>, drawn: seq<Uuid>)
    requires |drawn| == |names| && OnlyNames(f, n.fleet, id, agentId) && NameAll(n, id, agentId, names, drawn).Some?
    ensures OnlyNames(f, NameAll(n, id, agentId, names, drawn).value.fleet, id, agentId)
  {
    hide OnlyNames, NameOne;
    if names != [] {
      var k := |names| - 1;
      NamingAllOnlyNames(f, n, id, agentId, names[..k], drawn[..k]);
      NamingOnlyNames(f, NameAll(n, id, agentId, names[..k], drawn[..k]).value, id, agentId, names[k], drawn[k]);
    }
  }

  lemma IdentifyOnlyNames(f: F.Fleet, id: Uuid, names: seq<string>, drawn: seq<Uuid>)
    requires |drawn| == |names| && IdentifyProjects(f, id, names, drawn).Some?
    ensures id in f.credentials
            && OnlyNames(f, IdentifyProjects(f, id, names, drawn).value.fleet, id, f.credentials[id].agentId)
  {
    hide NameAll;
    var agentId := f.credentials[id].agentId;
    var g := WithoutAbandoned(f, id, agentId);
    NamingAllOnlyNames(f, Naming(g, [], |set p | p in g.projects && Unpublished(g, p, id)|), id, agentId, names, drawn);
  }

  lemma NamesKeepPages(f: F.Fleet, g: F.Fleet, id: Uuid, agentId: Uuid, e: Uuid)
    requires OnlyNames(f, g, id, agentId) && PagesInv(f, e) && EnvironmentInv(f, e)
    requires id in f.credentials && f.credentials[id].agentId == agentId
    ensures PagesInv(g, e)
  {
    assert Rows(g, e) == Rows(f, e);
  }

  lemma NamesKeepManaged(s: Moment, g: F.Fleet, id: Uuid, agentId: Uuid, e: Uuid)
    requires OnlyNames(s.fleet, g, id, agentId) && ManagedInv(s, e)
    ensures ManagedInv(Moment(g, s.history), e)
  {
    forall p ensures p in ManagedIn(g, e) <==> p in ManagedIn(s.fleet, e) {
    }
    assert ManagedIn(g, e) == ManagedIn(s.fleet, e);
  }

  lemma NamesKeepCommands(s: Moment, g: F.Fleet, id: Uuid, agentId: Uuid, c: Uuid)
    requires OnlyNames(s.fleet, g, id, agentId) && CommandInv(s.fleet, c) && forall e :: ManagedInv(s, e)
    ensures CommandInv(g, c)
  {
    if c in g.ledger.rows && g.ledger.rows[c].state == Accepted {
      var p := g.ledger.rows[c].command.projectId;
      assert ManagedInv(s, s.fleet.projects[p].environmentId);
      assert p in ManagedIn(s.fleet, s.fleet.projects[p].environmentId);
    }
  }

  lemma IdentifyStepKeeps(s: Moment, id: Uuid, names: seq<string>, drawn: seq<Uuid>)
    requires Inv(s) && |drawn| == |names|
    ensures Inv(Next(s, DoIdentify(id, names, drawn)))
  {
    hide IdentifyProjects, OnlyNames, EnvironmentInv, HistoryInv, SequenceInv, PagesInv, ManagedInv, CommandInv,
      P.WellBehaved, UniqueNames;
    if IdentifyProjects(s.fleet, id, names, drawn).Some? {
      IdentifyOnlyNames(s.fleet, id, names, drawn);
      FleetNaming.NamingKeepsUnique(s.fleet, id, names, drawn);
      var g := IdentifyProjects(s.fleet, id, names, drawn).value.fleet;
      var agentId := s.fleet.credentials[id].agentId;
      NamesKeepRest(s, g, id, agentId);
      forall e ensures PagesInv(g, e) && ManagedInv(Moment(g, s.history), e) {
        NamesKeepPages(s.fleet, g, id, agentId, e);
        NamesKeepManaged(s, g, id, agentId, e);
      }
      forall c ensures CommandInv(g, c) { NamesKeepCommands(s, g, id, agentId, c); }
    }
  }

  lemma NamesKeepRest(s: Moment, g: F.Fleet, id: Uuid, agentId: Uuid)
    requires OnlyNames(s.fleet, g, id, agentId) && HistoryInv(s) && SequenceInv(s)
    requires forall e :: EnvironmentInv(s.fleet, e)
    ensures HistoryInv(Moment(g, s.history)) && SequenceInv(Moment(g, s.history)) && g.ledger == s.fleet.ledger
    ensures forall e :: EnvironmentInv(g, e)
  {
    forall e ensures EnvironmentInv(g, e) { assert EnvironmentInv(s.fleet, e); }
  }
}
