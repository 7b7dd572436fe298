/**
 The enrollment, session and observation services over their tables. Each method
 is one transaction, restoring the tables where the service rolls back, and is
 proved to commit what the function of the same name says.
 */
module FleetService {
  import opened Prelude
  import opened Wire
  import F = Fleet
  import P = LedgerProofs
  import L = Ledger

  // ----- invalidating several projects one after the other -----

  function CommandsOf(l: L.Ledger, projects: set<Uuid>): set<Uuid> {
    set c | c in l.rows && l.rows[c].command.projectId in projects
  }

  lemma InvalidateTwice(l: L.Ledger, a: set<Uuid>, b: set<Uuid>, now: int)
    requires P.Valid(l)
    ensures L.Invalidate(L.Invalidate(l, a, now), b, now) == L.Invalidate(l, a + b, now)
  {
    hide ValidRecord;
    var (m, n) := (L.Invalidate(L.Invalidate(l, a, now), b, now), L.Invalidate(l, a + b, now));
    forall x ensures x in m.audits <==> x in n.audits {
      if x in m.audits && x !in l.audits {
        var c :| c in l.rows && c in a + b && l.rows[c].state == Accepted
                 && x == L.Audit(c, L.Invalidated, now, Expired);
      }
    }
    assert m.audits == n.audits;
  }

  /** Invalidating project by project invalidates the commands of all of them. */
  lemma InvalidateOneMore(l: L.Ledger, projects: set<Uuid>, p: Uuid, now: int)
    requires P.Valid(l)
    ensures L.InvalidateProject(L.Invalidate(l, CommandsOf(l, projects), now), p, now)
            == L.Invalidate(l, CommandsOf(l, projects + {p}), now)
  {
    hide L.Invalidate, P.Valid;
    var m := L.Invalidate(l, CommandsOf(l, projects), now);
    SameCommands(l, CommandsOf(l, projects), now);
    CommandsOfOne(l, m, p);
    assert L.InvalidateProject(m, p, now) == L.Invalidate(m, CommandsOf(m, {p}), now) by {
      ProjectIsItsCommands(m, p, now);
    }
    InvalidateTwice(l, CommandsOf(l, projects), CommandsOf(l, {p}), now);
    assert CommandsOf(l, projects) + CommandsOf(l, {p}) == CommandsOf(l, projects + {p});
  }

  lemma CommandsOfOne(l: L.Ledger, m: L.Ledger, p: Uuid)
    requires m.rows.Keys == l.rows.Keys && forall c :: c in l.rows ==> m.rows[c].command == l.rows[c].command
    ensures CommandsOf(m, {p}) == CommandsOf(l, {p})
  {
  }

  lemma ProjectIsItsCommands(m: L.Ledger, p: Uuid, now: int)
    ensures L.InvalidateProject(m, p, now) == L.Invalidate(m, CommandsOf(m, {p}), now)
  {
    assert (set c | c in m.rows && m.rows[c].command.projectId == p) == CommandsOf(m, {p});
  }

  lemma SameCommands(l: L.Ledger, ids: set<Uuid>, now: int)
    ensures var m := L.Invalidate(l, ids, now);
            m.rows.Keys == l.rows.Keys && forall c :: c in l.rows ==> m.rows[c].command == l.rows[c].command
  {
  }

  class FleetTables {
    var environments: map<Uuid, F.Environment>
    var tokens: map<Uuid, F.Token>
    var credentials: map<Uuid, F.Credential>
    var sessions: map<Uuid, F.Session>
    var projects: map<Uuid, F.Project>
    var revisions: map<Uuid, F.Revision>
    var pages: map<Uuid, seq<F.Page>>
    var ledger: L.Ledger

    function View(): F.Fleet
      reads this
    {
      F.Fleet.Fleet(environments, tokens, credentials, sessions, projects, revisions, pages, ledger)
    }

    constructor ()
      ensures View() == F.NO_FLEET
    {
      environments, tokens, credentials, sessions := map[], map[], map[], map[];
      projects, revisions, pages, ledger := map[], map[], map[], L.EMPTY;
    }

    /** Rolls the transaction back. */
    method Restore(f: F.Fleet)
      modifies this
      ensures View() == f
    {
      environments, tokens, credentials, sessions := f.environments, f.tokens, f.credentials, f.sessions;
      projects, revisions, pages, ledger := f.projects, f.revisions, f.pages, f.ledger;
    }

    // ----- enrollment -----

    method IssueToken(id: Uuid, verifier: nat, now: int)
      modifies this`tokens
      ensures View() == F.IssueToken(old(View()), id, verifier, now)
    {
      tokens := tokens[id := F.Token.Token(verifier, now + F.TOKEN_LIFETIME_MS)];
    }

    method CreateEnvironment(id: Uuid, verifier: nat, now: int) returns (ok: bool)
      modifies this
      ensures Commits(old(View()), F.CreateEnvironment(old(View()), id, verifier, now), View(), ok)
    {
      if id in environments { return false; }
      environments := environments[id := F.Environment.Environment(F.Pending, F.AwaitingSignal, None)];
      IssueToken(id, verifier, now);
      ok := true;
    }

    method RegenerateEnrollment(id: Uuid, verifier: nat, now: int) returns (ok: bool)
      modifies this
      ensures Commits(old(View()), F.Regenerate(old(View()), id, verifier, now), View(), ok)
    {
      if id !in environments || environments[id].enrollment.Enrolled? { return false; }
      IssueToken(id, verifier, now);
      environments := environments[id := F.Environment.Environment(F.Pending, F.AwaitingSignal, None)];
      ok := true;
    }

    /** The token names the environment it was issued for. */
    method Enroll(verifier: nat, agentId: Uuid, credential: nat, now: int) returns (ok: bool, ghost id: Uuid)
      requires forall i, j | i in tokens && j in tokens && tokens[i].verifier == tokens[j].verifier :: i == j
      modifies this
      ensures Commits(old(View()), F.Enroll(old(View()), id, verifier, agentId, credential, now), View(), ok)
      ensures !ok ==> forall e :: F.Enroll(old(View()), e, verifier, agentId, credential, now).None?
    {
      id := 0;
      if e :|
          && e in tokens && e in environments && tokens[e].verifier == verifier
          && environments[e].enrollment.Pending?
      {
        id := e;
        if tokens[e].expiresAt <= now || e in credentials { return false, e; }
        tokens := tokens - {e};
        credentials := credentials[e := F.Credential.Credential(agentId, credential)];
        environments := environments[e := F.Environment.Environment(F.Enrolled, F.AwaitingSignal, None)];
        return true, e;
      }
      ok := false;
    }

    method Revoke(id: Uuid, now: int) returns (ok: bool)
      modifies this
      ensures Commits(old(View()), F.Revoke(old(View()), id, now), View(), ok)
    {
      hide L.InvalidateEnvironment;
      if id !in environments { return false; }
      if environments[id].enrollment.Revoked? { return true; }
      tokens := tokens - {id};
      credentials := credentials - {id};
      environments := environments[id := environments[id].(enrollment := F.Revoked, connection := F.Offline)];
      sessions := sessions - {id};
      ledger := L.InvalidateEnvironment(ledger, id, now);
      ok := true;
    }

    // ----- sessions -----

    method OpenSession(id: Uuid, agentId: Uuid, credential: nat, sessionId: Uuid, now: int) returns (ok: bool)
      modifies this
      ensures Commits(old(View()), F.OpenSession(old(View()), id, agentId, credential, sessionId, now), View(), ok)
    {
      if !F.Authentic(View(), id, agentId, credential) { return false; }
      if id in sessions && sessions[id].expiresAt > now { return false; }
      sessions := sessions[id := F.Session.Session(agentId, sessionId, now + F.SESSION_LIFETIME_MS, -1)];
      environments := environments[id := environments[id].(
        connection := if environments[id].lastContact.None? then F.AwaitingSignal else F.Offline)];
      ok := true;
    }

    method ExpireSessions(now: int)
      modifies this
      ensures View() == F.ExpireSessions(old(View()), now)
    {
      environments := map id | id in environments ::
        if id in sessions && sessions[id].expiresAt <= now then F.WentOffline(environments[id]) else environments[id];
    }

    method RecoverAfterRestart(now: int)
      modifies this
      ensures View() == F.Restart(old(View()), now)
    {
      sessions := map id | id in sessions :: sessions[id].(expiresAt := now);
      environments := map id | id in environments :: F.WentOffline(environments[id]);
    }

    // ----- observations -----

    method ObserveProject(id: Uuid, o: F.Observation, now: int) returns (ok: bool)
      requires P.Valid(ledger)
      modifies this
      ensures P.Valid(ledger)
      ensures ok == F.Accepts(old(View()), id, o)
      ensures View() == if ok then F.Observed(old(View()), o, now) else old(View())
    {
      hide L.InvalidateProject, P.Valid;
      StaysValid(ledger, o.projectId, now);
      if o.projectId !in projects || id !in sessions { return false; }
      var row := projects[o.projectId];
      if row.environmentId != id || row.agentId != sessions[id].agentId || row.localProjectId != o.localProjectId {
        return false;
      }
      var retained := o;
      if o.snapshot.None? && row.observation.Some? && row.observation.value.snapshot.Some? {
        retained := o.(snapshot := row.observation.value.snapshot,
                       snapshotObservedAt := row.observation.value.snapshotObservedAt);
        if o.snapshotError.None? { retained := retained.(snapshotError := Some(F.LATEST_UNAVAILABLE)); }
      }
      projects := projects[o.projectId := row.(observation := Some(retained), receivedAt := Some(now))];
      if row.managed && o.validation == F.InvalidProject(ProjectUnmanaged) {
        ledger := L.InvalidateProject(ledger, o.projectId, now);
      }
      ok := true;
    }

    /** Applies the observations of a page one by one; one that is refused stops it. */
    method ObserveProjects(id: Uuid, observations: seq<F.Observation>, now: int) returns (ok: bool)
      requires P.Valid(ledger)
      modifies this
      ensures P.Valid(ledger)
      ensures ok == F.ObservedAll(old(View()), id, observations, now).Some?
      ensures ok ==> View() == F.ObservedAll(old(View()), id, observations, now).value
    {
      hide F.Accepts, F.Observed, P.Valid;
      var k := 0;
      while k < |observations|
        invariant 0 <= k <= |observations| && P.Valid(ledger)
        invariant F.ObservedAll(old(View()), id, observations[..k], now) == Some(View())
      {
        assert observations[..k + 1][..k] == observations[..k];
        ok := ObserveProject(id, observations[k], now);
        if !ok {
          RefusedStays(old(View()), id, observations, k + 1, now);
          return;
        }
        k := k + 1;
      }
      assert observations[..k] == observations;
      ok := true;
    }

    method CommitRow(p: Uuid, managed: bool, now: int)
      requires p in projects
      modifies this`projects, this`ledger
      ensures projects == old(projects)[p := CommittedRow(old(projects)[p], managed)]
      ensures ledger == if old(projects)[p].managed && !managed then L.InvalidateProject(old(ledger), p, now)
                        else old(ledger)
    {
      if projects[p].managed && !managed { ledger := L.InvalidateProject(ledger, p, now); }
      projects := projects[p := projects[p].(managed := managed, published := projects[p].published || managed)];
    }

    /** Visits the rows of the environment one by one. */
    method CommitRows(id: Uuid, all: set<Uuid>, now: int)
      requires P.Valid(ledger)
      modifies this`projects, this`ledger
      ensures projects == Committing(old(View()), id, all, RowsIn(old(View()), id), now).projects
      ensures ledger == Committing(old(View()), id, all, RowsIn(old(View()), id), now).ledger
    {
      hide P.Valid, L.Invalidate, L.InvalidateProject, Committing, CommittedRow;
      ghost var f := View();
      var pending := set p | p in projects && projects[p].environmentId == id;
      ghost var done := {};
      NothingDropped(f, id, all, now);
      while pending != {}
        invariant pending !! done && pending + done == RowsIn(f, id)
        invariant projects == Committing(f, id, all, done, now).projects
        invariant ledger == Committing(f, id, all, done, now).ledger
        decreases |pending|
      {
        var p :| p in pending;
        pending := pending - {p};
        assert p in RowsIn(f, id);
        CommitOneMore(f, id, all, done, p, now);
        CommitRow(p, p in all, now);
        done := done + {p};
      }
      assert done == RowsIn(f, id);
    }

    /** Makes managed exactly the projects named by a complete revision. */
    method Commit(id: Uuid, all: set<Uuid>, now: int)
      requires id in revisions && P.Valid(ledger)
      modifies this
      ensures View() == F.Committed(old(View()), id, all, now)
    {
      hide P.Valid, L.Invalidate, Committing;
      ghost var f := View();
      CommitRows(id, all, now);
      CommitAll(f, id, all, RowsIn(f, id), now);
      revisions := revisions[id := revisions[id].(complete := true)];
      pages := pages[id := []];
    }

    /** Collects the identifiers of all stored pages. */
    method PreviousIds(id: Uuid) returns (ids: seq<Uuid>)
      ensures ids == F.IdsOf(F.Rows(View(), id))
    {
      var rows := if id in pages then pages[id] else [];
      ids := [];
      var k := 0;
      while k < |rows|
        invariant 0 <= k <= |rows| && ids == F.IdsOf(rows[..k])
      {
        IdsOneMore(rows[..k], rows[k]);
        assert rows[..k + 1] == rows[..k] + [rows[k]];
        ids := ids + rows[k].ids;
        k := k + 1;
      }
      assert rows[..k] == rows;
    }

    method BeginPage(id: Uuid, sessionId: Uuid, v: F.Inventory) returns (ok: bool)
      modifies this`pages, this`revisions
      ensures Commits(old(View()), F.BeginPage(old(View()), id, sessionId, v), View(), ok)
    {
      if id !in revisions || revisions[id].sessionId != sessionId || revisions[id].revisionId != v.revisionId {
        if v.pageIndex != 0 { return false; }
        pages := pages[id := []];
        revisions := revisions[id := F.Revision.Revision(sessionId, v.revisionId, v.pageCount, false)];
        return true;
      }
      ok := !revisions[id].complete && revisions[id].pageCount == v.pageCount;
    }

    /** The page is new, within the limit, and repeats no project of another page. */
    method PageIsFresh(id: Uuid, v: F.Inventory) returns (isFresh: bool)
      ensures isFresh == F.Fresh(F.Rows(View(), id), v)
    {
      hide F.IdsOf;
      var rows := if id in pages then pages[id] else [];
      if exists k :: 0 <= k < |rows| && rows[k].index == v.pageIndex { return false; }
      var previousIds := PreviousIds(id);
      var ids := F.ProjectIds(v.projects);
      if |previousIds| + |ids| > MANAGED_PROJECTS_PER_AGENT || exists k :: 0 <= k < |ids| && ids[k] in previousIds {
        Overlap(rows, v);
        return false;
      }
      NoOverlap(rows, v);
      isFresh := true;
    }

    /** Stores an observed page and commits its revision when it was the last. */
    method StorePage(id: Uuid, v: F.Inventory, now: int)
      requires P.Valid(ledger) && id in revisions
      modifies this
      ensures var (f, rows) :=
              (old(View()), F.Rows(old(View()), id) + [F.Page.Page(v.pageIndex, F.ProjectIds(v.projects))]);
              var g := f.(pages := f.pages[id := rows]);
              View() == if |rows| == v.pageCount then F.Committed(g, id, F.SetOf(F.IdsOf(rows)), now) else g
    {
      hide P.Valid, F.Committed, F.IdsOf;
      var previousIds := PreviousIds(id);
      var ids := F.ProjectIds(v.projects);
      var rows := if id in pages then pages[id] else [];
      IdsOneMore(rows, F.Page.Page(v.pageIndex, ids));
      rows := rows + [F.Page.Page(v.pageIndex, ids)];
      pages := pages[id := rows];
      if |rows| == v.pageCount { Commit(id, F.SetOf(previousIds + ids), now); }
    }

    /** A refused page leaves tables for the caller to restore. */
    method ReceiveObservation(id: Uuid, sessionId: Uuid, v: F.Inventory, now: int) returns (ok: bool)
      requires P.Valid(ledger)
      modifies this
      ensures ok == F.ReceiveObservation(old(View()), id, sessionId, v, now).Some?
      ensures ok ==> View() == F.ReceiveObservation(old(View()), id, sessionId, v, now).value
    {
      hide P.Valid, F.ObservedAll, F.Committed, F.IdsOf, F.Fresh, F.SetOf;
      ghost var f := View();
      ok := BeginPage(id, sessionId, v);
      if !ok { return; }
      BegunHasRevision(f, id, sessionId, v);
      ghost var b := View();
      ok := PageIsFresh(id, v);
      if !ok { return; }
      ok := ObserveProjects(id, v.projects, now);
      if !ok { return; }
      ObservingKeepsRows(b, id, v.projects, now);
      StorePage(id, v, now);
    }

    /** A heartbeat renews the session; only a new sequence number is projected. */
    method Observe(
      id: Uuid, agentId: Uuid, credential: nat, sessionId: Uuid, sequence: nat, v: F.Inventory, now: int)
      returns (ok: bool)
      requires P.Valid(ledger)
      modifies this
      ensures Commits(old(View()), F.Observe(old(View()), id, agentId, credential, sessionId, sequence, v, now),
                      View(), ok)
    {
      hide P.Valid, F.ReceiveObservation;
      var before := View();
      if !F.ValidInventory(v) { return false; }
      if !F.Authentic(before, id, agentId, credential) { return false; }
      if id !in sessions || sessions[id].agentId != agentId || sessions[id].sessionId != sessionId
         || sessions[id].expiresAt <= now
      {
        return false;
      }
      if sequence > sessions[id].sequence {
        ok := ReceiveObservation(id, sessionId, v, now);
        if !ok {
          Restore(before);
          return;
        }
        ReceivingKeepsSessions(before, id, sessionId, v, now);
        sessions := sessions[id := sessions[id].(sequence := sequence)];
      }
      sessions := sessions[id := sessions[id].(expiresAt := now + F.SESSION_LIFETIME_MS)];
      environments := environments[id := environments[id].(connection := F.Online, lastContact := Some(now))];
      ok := true;
    }

    // ----- project identities -----

    method NameProject(id: Uuid, agentId: Uuid, name: string, drawn: Uuid, ghost n: F.Naming, outstanding: nat)
      returns (named: Option<(Uuid, bool)>)
      requires n.fleet == View() && n.outstanding == outstanding && F.UniqueNames(View())
      modifies this`projects
      ensures F.UniqueNames(View())
      ensures var m := F.NameOne(n, id, agentId, name, drawn);
              && (named.Some? <==> m.Some?)
              && (named.Some? ==>
                  m.value == F.Naming.Naming(View(), n.ids + [named.value.0],
                                             outstanding + if named.value.1 then 1 else 0))
              && (named.None? ==> View() == old(View()))
    {
      if existing :| existing in projects && F.Named(View(), existing, id, agentId, name) {
        return Some((existing, false));
      }
      if outstanding >= MANAGED_PROJECTS_PER_AGENT || drawn in projects { return None; }
      projects := projects[drawn := F.Project.Project(id, name, agentId, false, false, None, None)];
      named := Some((drawn, true));
    }

    /** `drawn` are the fresh identifiers, one for each name that may need one. */
    method IdentifyProjects(id: Uuid, names: seq<string>, drawn: seq<Uuid>) returns (ids: Option<seq<Uuid>>)
      requires |drawn| == |names| && F.UniqueNames(View())
      modifies this
      ensures F.UniqueNames(View())
      ensures var n := F.IdentifyProjects(old(View()), id, names, drawn);
              && (ids.Some? <==> n.Some?)
              && (ids.Some? ==> n.value.ids == ids.value && View() == n.value.fleet)
              && (ids.None? ==> View() == old(View()))
    {
      hide F.NameOne, F.UniqueNames, F.WithoutAbandoned;
      var before := View();
      if |names| > MANAGED_PROJECTS_PER_AGENT || (exists i, j :: 0 <= i < j < |names| && names[i] == names[j])
         || "" in names
      {
        return None;
      }
      if id !in environments || !environments[id].enrollment.Enrolled? || id !in credentials { return None; }
      var agentId := credentials[id].agentId;
      projects := F.WithoutAbandoned(before, id, agentId).projects;
      AbandonedRows(before, id, agentId);
      var outstanding := |set p | p in projects && F.Unpublished(View(), p, id)|;
      ghost var start := F.Naming.Naming(View(), [], outstanding);
      ghost var n := start;
      var named := [];
      var k := 0;
      while k < |names|
        invariant 0 <= k <= |names| && F.UniqueNames(View())
        invariant n.fleet == View() && n.ids == named && n.outstanding == outstanding
        invariant F.NameAll(start, id, agentId, names[..k], drawn[..k]) == Some(n)
      {
        assert names[..k + 1][..k] == names[..k] && drawn[..k + 1][..k] == drawn[..k];
        var one := NameProject(id, agentId, names[k], drawn[k], n, outstanding);
        if one.None? {
          UnnamedStays(start, id, agentId, names, drawn, k + 1);
          Restore(before);
          return None;
        }
        n := F.NameOne(n, id, agentId, names[k], drawn[k]).value;
        named := named + [one.value.0];
        if one.value.1 { outstanding := outstanding + 1; }
        k := k + 1;
      }
      assert names[..k] == names && drawn[..k] == drawn;
      ids := Some(named);
    }
  }

  lemma BegunHasRevision(f: F.Fleet, id: Uuid, sessionId: Uuid, v: F.Inventory)
    requires F.BeginPage(f, id, sessionId, v).Some?
    ensures id in F.BeginPage(f, id, sessionId, v).value.revisions
    ensures F.BeginPage(f, id, sessionId, v).value.ledger == f.ledger
  {
  }

  lemma Overlap(rows: seq<F.Page>, v: F.Inventory)
    requires var ids := F.ProjectIds(v.projects);
             || |F.IdsOf(rows)| + |ids| > MANAGED_PROJECTS_PER_AGENT
             || exists k :: 0 <= k < |ids| && ids[k] in F.IdsOf(rows)
    ensures !F.Fresh(rows, v)
  {
    hide F.IdsOf;
    var ids := F.ProjectIds(v.projects);
    if k :| 0 <= k < |ids| && ids[k] in F.IdsOf(rows) { assert v.projects[k].projectId in F.IdsOf(rows); }
  }

  lemma NoOverlap(rows: seq<F.Page>, v: F.Inventory)
    requires var ids := F.ProjectIds(v.projects);
             && |F.IdsOf(rows)| + |ids| <= MANAGED_PROJECTS_PER_AGENT
             && forall k :: 0 <= k < |ids| ==> ids[k] !in F.IdsOf(rows)
    requires forall k :: 0 <= k < |rows| ==> rows[k].index != v.pageIndex
    ensures F.Fresh(rows, v)
  {
    hide F.IdsOf;
    forall k | 0 <= k < |v.projects| ensures v.projects[k].projectId !in F.IdsOf(rows) {
      assert F.ProjectIds(v.projects)[k] == v.projects[k].projectId;
    }
  }

  /** Observing touches projects and the ledger only. */
  lemma {:induction false} ObservingKeepsRows(f: F.Fleet, id: Uuid, observations: seq<F.Observation>, now: int)
    requires F.ObservedAll(f, id, observations, now).Some?
    ensures var g := F.ObservedAll(f, id, observations, now).value;
            g == f.(projects := g.projects, ledger := g.ledger)
  {
    if observations != [] {
      hide F.Accepts, L.InvalidateProject;
      ObservingKeepsRows(f, id, observations[..|observations| - 1], now);
    }
  }

  lemma ReceivingKeepsSessions(f: F.Fleet, id: Uuid, sessionId: Uuid, v: F.Inventory, now: int)
    requires F.ReceiveObservation(f, id, sessionId, v, now).Some?
    ensures var g := F.ReceiveObservation(f, id, sessionId, v, now).value;
            g.sessions == f.sessions && g.environments == f.environments
  {
    hide F.ObservedAll, F.IdsOf, F.Fresh;
    ObservingKeepsRows(F.BeginPage(f, id, sessionId, v).value, id, v.projects, now);
  }

  lemma AbandonedRows(f: F.Fleet, id: Uuid, agentId: Uuid)
    requires F.UniqueNames(f)
    ensures F.UniqueNames(F.WithoutAbandoned(f, id, agentId))
    ensures F.WithoutAbandoned(f, id, agentId) == f.(projects := F.WithoutAbandoned(f, id, agentId).projects)
  {
  }

  lemma {:induction false} UnnamedStays(
    n: F.Naming, id: Uuid, agentId: Uuid, names: seq<string>, drawn: seq<Uuid>, k: nat)
    requires |drawn| == |names| && k <= |names| && F.NameAll(n, id, agentId, names[..k], drawn[..k]).None?
    ensures F.NameAll(n, id, agentId, names, drawn).None?
    decreases |names| - k
  {
    if k == |names| {
      assert names[..k] == names && drawn[..k] == drawn;
    } else {
      assert names[..k + 1][..k] == names[..k] && drawn[..k + 1][..k] == drawn[..k];
      UnnamedStays(n, id, agentId, names, drawn, k + 1);
    }
  }

  lemma StaysValid(l: L.Ledger, projectId: Uuid, now: int)
    requires P.Valid(l)
    ensures P.Valid(L.InvalidateProject(l, projectId, now))
  {
    P.InvalidateShrinks(l, (set c | c in l.rows && l.rows[c].command.projectId == projectId), now);
  }

  lemma IdsOneMore(rows: seq<F.Page>, page: F.Page)
    ensures F.IdsOf(rows + [page]) == F.IdsOf(rows) + page.ids
  {
    assert (rows + [page])[..|rows|] == rows;
  }

  function RowsIn(f: F.Fleet, id: Uuid): set<Uuid> {
    set p | p in f.projects && f.projects[p].environmentId == id
  }

  ghost predicate Commits(before: F.Fleet, effect: Option<F.Fleet>, after: F.Fleet, ok: bool) {
    ok == effect.Some? && after == if ok then effect.value else before
  }

  lemma {:induction false} RefusedStays(f: F.Fleet, id: Uuid, observations: seq<F.Observation>, k: nat, now: int)
    requires k <= |observations| && F.ObservedAll(f, id, observations[..k], now).None?
    ensures F.ObservedAll(f, id, observations, now).None?
    decreases |observations| - k
  {
    if k == |observations| {
      assert observations[..k] == observations;
    } else {
      assert observations[..k + 1][..k] == observations[..k];
      RefusedStays(f, id, observations, k + 1, now);
    }
  }

  // ----- committing row by row -----

  function CommittedRow(p: F.Project, managed: bool): F.Project {
    p.(managed := managed, published := p.published || managed)
  }

  /** The tables after some rows of the environment were visited. */
  ghost function Committing(f: F.Fleet, id: Uuid, all: set<Uuid>, done: set<Uuid>, now: int): F.Fleet {
    f.(projects := map p | p in f.projects ::
       if p in done then CommittedRow(f.projects[p], p in all) else f.projects[p],
       ledger := L.Invalidate(f.ledger, CommandsOf(f.ledger, F.Dropped(f, id, all) * done), now))
  }

  lemma NothingDropped(f: F.Fleet, id: Uuid, all: set<Uuid>, now: int)
    ensures Committing(f, id, all, {}, now) == f
  {
    assert CommandsOf(f.ledger, F.Dropped(f, id, all) * {}) == {};
    NothingInvalidated(f.ledger, now);
  }

  lemma NothingInvalidated(l: L.Ledger, now: int)
    ensures L.Invalidate(l, {}, now) == l
  {
  }

  lemma CommitOneMore(f: F.Fleet, id: Uuid, all: set<Uuid>, done: set<Uuid>, p: Uuid, now: int)
    requires P.Valid(f.ledger) && p in f.projects && f.projects[p].environmentId == id && p !in done
    ensures var (g, h) := (Committing(f, id, all, done, now), Committing(f, id, all, done + {p}, now));
            && p in g.projects && g.projects[p] == f.projects[p]
            && h.projects == g.projects[p := CommittedRow(f.projects[p], p in all)]
            && h.ledger == (if f.projects[p].managed && p !in all then L.InvalidateProject(g.ledger, p, now)
                            else g.ledger)
  {
    hide P.Valid, L.Invalidate, L.InvalidateProject;
    var dropped := F.Dropped(f, id, all);
    if f.projects[p].managed && p !in all {
      assert dropped * (done + {p}) == dropped * done + {p};
      InvalidateOneMore(f.ledger, dropped * done, p, now);
    } else {
      assert dropped * (done + {p}) == dropped * done;
    }
  }

  lemma CommitAll(f: F.Fleet, id: Uuid, all: set<Uuid>, done: set<Uuid>, now: int)
    requires id in f.revisions && done == RowsIn(f, id)
    ensures var (g, h) := (F.Committed(f, id, all, now), Committing(f, id, all, done, now));
            g == h.(revisions := g.revisions, pages := g.pages)
  {
    hide L.Invalidate;
    assert F.Dropped(f, id, all) * done == F.Dropped(f, id, all);
  }
}
