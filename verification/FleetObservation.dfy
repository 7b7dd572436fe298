/** Receiving one page of an inventory keeps the invariants, and completing a revision decides what is managed. */
module FleetObservation {
  import opened Prelude
  import opened Wire
  import opened F = Fleet
  import opened FleetRuns
  import L = Ledger
  import P = LedgerProofs

  // ----- pages -----

  lemma {:induction false} DistinctBelow(indices: set<nat>, n: nat)
    requires forall i :: i in indices ==> i < n
    ensures |indices| <= n
    ensures |indices| == n ==> forall i :: 0 <= i < n ==> i in indices
  {
    if n == 0 {
      assert indices == {};
    } else {
      DistinctBelow(indices - {n - 1}, n - 1);
      if n - 1 in indices {
        assert |indices - {n - 1}| == |indices| - 1;
      } else {
        assert indices - {n - 1} == indices;
      }
    }
  }

  function IndicesOf(rows: seq<Page>): set<nat> { set k | 0 <= k < |rows| :: rows[k].index }

  ghost predicate DistinctPages(rows: seq<Page>, n: nat) {
    && (forall k :: 0 <= k < |rows| ==> rows[k].index < n)
    && (forall i, j :: 0 <= i < j < |rows| ==> rows[i].index != rows[j].index)
  }

  lemma {:induction false} PageCount(rows: seq<Page>, n: nat)
    requires DistinctPages(rows, n)
    ensures |IndicesOf(rows)| == |rows|
  {
    if rows == [] {
      assert IndicesOf(rows) == {};
    } else {
      var k := |rows| - 1;
      PageCount(rows[..k], n);
      assert IndicesOf(rows) == IndicesOf(rows[..k]) + {rows[k].index};
      forall j | 0 <= j < k ensures rows[..k][j].index != rows[k].index {
      }
    }
  }

  ghost predicate ArrivedOnce(rows: seq<Page>, i: nat) {
    exists k :: 0 <= k < |rows| && rows[k].index == i && forall j :: 0 <= j < |rows| && rows[j].index == i ==> j == k
  }

  /** When as many pages have arrived as the revision has, each of its pages has arrived exactly once. */
  lemma AllPagesArrived(rows: seq<Page>, n: nat, i: nat)
    requires DistinctPages(rows, n) && |rows| == n && i < n
    ensures ArrivedOnce(rows, i)
  {
    PageCount(rows, n);
    DistinctBelow(IndicesOf(rows), n);
    assert i in IndicesOf(rows);
    var k :| 0 <= k < |rows| && rows[k].index == i;
    forall j | 0 <= j < |rows| && rows[j].index == i ensures j == k {
    }
  }

  lemma {:induction false} SetOfIds(ids: seq<Uuid>)
    ensures |SetOf(ids)| <= |ids|
  {
    if ids != [] {
      var n := |ids| - 1;
      SetOfIds(ids[..n]);
      assert SetOf(ids) == SetOf(ids[..n]) + {ids[n]};
    } else {
      assert SetOf(ids) == {};
    }
  }

  lemma DistinctSum(a: seq<Uuid>, b: seq<Uuid>)
    requires DistinctIds(a) && DistinctIds(b) && forall k :: 0 <= k < |b| ==> b[k] !in a
    ensures DistinctIds(a + b)
  {
    forall i, j | 0 <= i < j < |a + b| ensures (a + b)[i] != (a + b)[j] {
      if i < |a| <= j { assert a[i] in a && b[j - |a|] !in a; }
    }
  }

  // ----- observing -----

  /** The same rows with other observations; commands only shrink. */
  ghost predicate OnlyObserves(f: F.Fleet, g: F.Fleet) {
    && g == f.(projects := g.projects, ledger := g.ledger)
    && g.projects.Keys == f.projects.Keys
    && (forall p :: p in f.projects ==>
          g.projects[p]
            == f.projects[p].(observation := g.projects[p].observation, receivedAt := g.projects[p].receivedAt))
    && (forall p :: p in f.projects && f.projects[p].observation.Some? ==> g.projects[p].observation.Some?)
  }

  lemma ObservedOnly(f: F.Fleet, g: F.Fleet, o: Observation, now: int)
    requires OnlyObserves(f, g) && o.projectId in g.projects
    ensures OnlyObserves(f, Observed(g, o, now))
  {
  }

  lemma ObservedKeepsCommands(f: F.Fleet, o: Observation, now: int, c: Uuid)
    requires o.projectId in f.projects && forall d :: CommandInv(f, d)
    ensures CommandInv(Observed(f, o, now), c)
  {
    assert CommandInv(f, c);
  }

  lemma ObservedKeepsLedger(f: F.Fleet, o: Observation, now: int)
    requires o.projectId in f.projects && P.WellBehaved(f.ledger)
    ensures P.WellBehaved(Observed(f, o, now).ledger)
  {
    hide P.WellBehaved;
    P.NextKeeps(f.ledger, L.DoInvalidateProject(o.projectId, now));
  }

  lemma {:induction false} ObservedAllKeeps(f: F.Fleet, id: Uuid, observations: seq<Observation>, now: int)
    requires P.WellBehaved(f.ledger) && (forall c :: CommandInv(f, c)) && ObservedAll(f, id, observations, now).Some?
    ensures var g := ObservedAll(f, id, observations, now).value;
            && OnlyObserves(f, g) && P.WellBehaved(g.ledger) && (forall c :: CommandInv(g, c))
            && forall k :: 0 <= k < |observations| ==>
                 id in f.sessions && Uploads(g, observations[k].projectId, id, f.sessions[id].agentId)
  {
    hide P.WellBehaved, CommandInv, Observed;
    if observations != [] {
      var n := |observations| - 1;
      var (rest, last) := (observations[..n], observations[n]);
      ObservedAllKeeps(f, id, rest, now);
      var g := ObservedAll(f, id, rest, now).value;
      ObservedOnly(f, g, last, now);
      ObservedKeepsLedger(g, last, now);
      forall c ensures CommandInv(Observed(g, last, now), c) { ObservedKeepsCommands(g, last, now, c); }
      forall k | 0 <= k < |observations|
        ensures id in f.sessions
                && Uploads(Observed(g, last, now), observations[k].projectId, id, f.sessions[id].agentId)
      {
        if k < n { assert observations[k] == rest[k]; }
        ObservedUploads(f, g, last, now, observations[k].projectId, id);
      }
    }
  }

  lemma ObservedUploads(f: F.Fleet, g: F.Fleet, o: Observation, now: int, p: Uuid, id: Uuid)
    requires OnlyObserves(f, g) && Accepts(g, id, o)
    requires p == o.projectId || (id in f.sessions && Uploads(g, p, id, f.sessions[id].agentId))
    ensures id in f.sessions && Uploads(Observed(g, o, now), p, id, f.sessions[id].agentId)
  {
  }

  // ----- committing -----

  lemma CommittedCommands(f: F.Fleet, id: Uuid, all: set<Uuid>, now: int, c: Uuid)
    requires id in f.revisions && CommandInv(f, c)
    ensures CommandInv(Committed(f, id, all, now), c)
  {
  }

  lemma CommittedLedger(f: F.Fleet, id: Uuid, all: set<Uuid>, now: int)
    requires id in f.revisions && P.WellBehaved(f.ledger)
    ensures P.WellBehaved(Committed(f, id, all, now).ledger)
  {
    var ids := set c | c in f.ledger.rows && f.ledger.rows[c].command.projectId in Dropped(f, id, all);
    P.InvalidateShrinks(f.ledger, ids, now);
    P.ShrinkingKeepsSlots(f.ledger, L.Invalidate(f.ledger, ids, now));
  }

  lemma CommittedManaged(f: F.Fleet, id: Uuid, all: set<Uuid>, now: int, e: Uuid)
    requires id in f.revisions
    requires forall p :: p in all ==> p in f.projects && f.projects[p].environmentId == id
    ensures ManagedIn(Committed(f, id, all, now), e) == if e == id then all else ManagedIn(f, e)
  {
  }

  // ----- one page -----

  lemma BegunPage(f: F.Fleet, id: Uuid, sessionId: Uuid, v: Inventory)
    requires BeginPage(f, id, sessionId, v).Some? && PagesInv(f, id) && ValidInventory(v)
    ensures var b := BeginPage(f, id, sessionId, v).value;
            && b == f.(pages := b.pages, revisions := b.revisions)
            && id in b.revisions && b.revisions[id] == Revision(sessionId, v.revisionId, v.pageCount, false)
            && Rows(b, id) == (if F.Continues(f, id, sessionId, v) then Rows(f, id) else [])
            && (forall e :: e != id ==> Rows(b, e) == Rows(f, e) && (e in b.revisions <==> e in f.revisions)
                                        && (e in f.revisions ==> b.revisions[e] == f.revisions[e]))
            && PagesInv(b, id)
  {
  }

  lemma IdsWithPage(rows: seq<Page>, page: Page)
    ensures IdsOf(rows + [page]) == IdsOf(rows) + page.ids
  {
    assert (rows + [page])[..|rows|] == rows;
  }

  /** A fresh page adds its own index and its own distinct projects. */
  lemma PageAdded(rows: seq<Page>, v: Inventory)
    requires ValidInventory(v) && Fresh(rows, v) && DistinctIds(IdsOf(rows)) && DistinctPages(rows, v.pageCount)
    ensures var more := rows + [Page(v.pageIndex, ProjectIds(v.projects))];
            && DistinctPages(more, v.pageCount)
            && DistinctIds(IdsOf(more)) && |IdsOf(more)| <= MANAGED_PROJECTS_PER_AGENT
            && IdsOf(more) == IdsOf(rows) + ProjectIds(v.projects)
  {
    IdsWithPage(rows, Page(v.pageIndex, ProjectIds(v.projects)));
    DistinctSum(IdsOf(rows), ProjectIds(v.projects));
  }

  /** What receiving one page of a current session does to the fleet. */
  ghost predicate PageReceived(f: F.Fleet, id: Uuid, sessionId: Uuid, v: Inventory, g: F.Fleet) {
    && g == f.(projects := g.projects, ledger := g.ledger, pages := g.pages, revisions := g.revisions)
    && id in g.revisions && g.revisions[id].sessionId == sessionId
    && (forall e :: e != id ==> Rows(g, e) == Rows(f, e) && (e in g.revisions <==> e in f.revisions)
                                && (e in f.revisions ==> g.revisions[e] == f.revisions[e]))
    && (forall p :: p in f.projects ==>
          && p in g.projects && g.projects[p].environmentId == f.projects[p].environmentId
          && g.projects[p].agentId == f.projects[p].agentId
          && (f.projects[p].published ==> g.projects[p].published)
          && (f.projects[p].observation.Some? ==> g.projects[p].observation.Some?))
    && (forall e ::
        ManagedIn(g, e) == if e == id && g.revisions[id].complete then Uploaded(f, id, sessionId, v)
                           else ManagedIn(f, e))
  }

  lemma PageOfOthers(f: F.Fleet, id: Uuid, sessionId: Uuid, v: Inventory, g: F.Fleet, e: Uuid)
    requires PageReceived(f, id, sessionId, v, g) && PagesInv(f, e) && e != id
    ensures PagesInv(g, e)
  {
  }

  ghost predicate Ready(f: F.Fleet, id: Uuid, sessionId: Uuid) {
    && P.WellBehaved(f.ledger) && (forall c :: CommandInv(f, c)) && PagesInv(f, id)
    && id in f.sessions && f.sessions[id].sessionId == sessionId
  }

  /** The page before it is counted: every project on it and on its siblings is uploaded. */
  lemma PageStored(f: F.Fleet, id: Uuid, sessionId: Uuid, v: Inventory, now: int)
    returns (g: F.Fleet, rows: seq<Page>)
    requires Ready(f, id, sessionId) && ValidInventory(v) && ReceiveObservation(f, id, sessionId, v, now).Some?
    ensures var b := BeginPage(f, id, sessionId, v).value;
            && OnlyObserves(b, g.(pages := b.pages)) && Rows(g, id) == rows && g.pages == b.pages[id := rows]
            && IdsOf(rows) == IdsOf(Rows(b, id)) + ProjectIds(v.projects)
            && DistinctPages(rows, v.pageCount) && DistinctIds(IdsOf(rows))
               && |IdsOf(rows)| <= MANAGED_PROJECTS_PER_AGENT
            && (forall p :: p in IdsOf(rows) ==> Uploads(g, p, id, f.sessions[id].agentId))
    ensures P.WellBehaved(g.ledger) && forall c :: CommandInv(g, c)
    ensures id in g.revisions && g.revisions[id] == Revision(sessionId, v.revisionId, v.pageCount, false)
    ensures rows == Rows(BeginPage(f, id, sessionId, v).value, id) + [Page(v.pageIndex, ProjectIds(v.projects))]
    ensures ReceiveObservation(f, id, sessionId, v, now)
            == Some(if |rows| == v.pageCount then Committed(g, id, SetOf(IdsOf(rows)), now) else g)
  {
    hide P.WellBehaved, CommandInv, PagesInv, BeginPage, ObservedAll, Fresh, ValidInventory, IdsOf, DistinctIds,
      Committed;
    BegunPage(f, id, sessionId, v);
    var b := BeginPage(f, id, sessionId, v).value;
    CommandsDespitePages(f, b);
    ObservedAllKeeps(b, id, v.projects, now);
    var o := ObservedAll(b, id, v.projects, now).value;
    rows := Rows(b, id) + [Page(v.pageIndex, ProjectIds(v.projects))];
    g := o.(pages := o.pages[id := rows]);
    CommandsDespitePages(o, g);
    RowsOf(b, id);
    PageAdded(Rows(b, id), v);
    forall p | p in IdsOf(rows) ensures Uploads(g, p, id, f.sessions[id].agentId) {
      if p in IdsOf(Rows(b, id)) {
        UploadsStay(b, o, id, p);
      } else {
        var k :| 0 <= k < |v.projects| && v.projects[k].projectId == p;
        assert Uploads(o, v.projects[k].projectId, id, f.sessions[id].agentId);
      }
    }
  }

  lemma RowsOf(b: F.Fleet, id: Uuid)
    requires PagesInv(b, id) && id in b.revisions && id in b.sessions
             && b.sessions[id].sessionId == b.revisions[id].sessionId
    ensures DistinctIds(IdsOf(Rows(b, id))) && DistinctPages(Rows(b, id), b.revisions[id].pageCount)
    ensures forall p :: p in IdsOf(Rows(b, id)) ==> Uploads(b, p, id, b.sessions[id].agentId)
  {
  }

  lemma UploadsStay(b: F.Fleet, o: F.Fleet, id: Uuid, p: Uuid)
    requires OnlyObserves(b, o) && id in b.sessions && Uploads(b, p, id, b.sessions[id].agentId)
    ensures Uploads(o, p, id, b.sessions[id].agentId)
  {
  }

  lemma CommandsDespitePages(f: F.Fleet, b: F.Fleet)
    requires b == f.(pages := b.pages, revisions := b.revisions) && forall c :: CommandInv(f, c)
    ensures forall c :: CommandInv(b, c)
  {
    forall c ensures CommandInv(b, c) { assert CommandInv(f, c); }
  }

  // ----- one page, received -----

  lemma StoredIsReceived(f: F.Fleet, id: Uuid, sessionId: Uuid, v: Inventory, g: F.Fleet)
    requires BeginPage(f, id, sessionId, v).Some? && PagesInv(f, id) && ValidInventory(v)
    requires var b := BeginPage(f, id, sessionId, v).value;
             OnlyObserves(b, g.(pages := b.pages)) && g.pages == b.pages[id := Rows(g, id)]
    ensures PageReceived(f, id, sessionId, v, g)
    ensures forall p :: p in f.projects <==> p in g.projects
  {
    BegunPage(f, id, sessionId, v);
    var b := BeginPage(f, id, sessionId, v).value;
    forall e ensures ManagedIn(g, e) == ManagedIn(f, e) {
      assert forall p :: p in ManagedIn(g, e) <==> p in ManagedIn(f, e);
    }
    forall e | e != id ensures Rows(g, e) == Rows(f, e) {
      assert Rows(b, e) == Rows(f, e);
    }
  }

  /** Storing a page that does not complete its revision. */
  lemma StoredKeepsPages(f: F.Fleet, id: Uuid, g: F.Fleet, rows: seq<Page>)
    requires Rows(g, id) == rows && id in g.revisions && !g.revisions[id].complete && |rows| < g.revisions[id].pageCount
    requires DistinctPages(rows, g.revisions[id].pageCount) && DistinctIds(IdsOf(rows))
             && |IdsOf(rows)| <= MANAGED_PROJECTS_PER_AGENT
    requires id in g.sessions && forall p :: p in IdsOf(rows) ==> Uploads(g, p, id, g.sessions[id].agentId)
    ensures PagesInv(g, id)
  {
  }

  lemma UploadedRows(f: F.Fleet, id: Uuid, sessionId: Uuid, v: Inventory, rows: seq<Page>)
    requires IdsOf(rows) == IdsOf(if F.Continues(f, id, sessionId, v) then Rows(f, id) else []) + ProjectIds(v.projects)
    ensures SetOf(IdsOf(rows)) == Uploaded(f, id, sessionId, v)
  {
  }

  /** Committing a stored page. */
  lemma CommittedIsReceived(f: F.Fleet, id: Uuid, sessionId: Uuid, v: Inventory, g: F.Fleet, all: set<Uuid>, now: int)
    requires PageReceived(f, id, sessionId, v, g) && !g.revisions[id].complete && all == Uploaded(f, id, sessionId, v)
    requires forall p :: p in all ==> p in g.projects && g.projects[p].environmentId == id
    ensures PageReceived(f, id, sessionId, v, Committed(g, id, all, now))
  {
    var h := Committed(g, id, all, now);
    forall e ensures ManagedIn(h, e) == if e == id then all else ManagedIn(f, e) {
      CommittedManaged(g, id, all, now, e);
    }
  }

  lemma CommittedPages(g: F.Fleet, id: Uuid, all: set<Uuid>, now: int)
    requires id in g.revisions
    ensures PagesInv(Committed(g, id, all, now), id)
  {
  }

  /** What the managed projects of a fleet have in common. */
  ghost predicate Shown(f: F.Fleet, e: Uuid) {
    |ManagedIn(f, e)| <= MANAGED_PROJECTS_PER_AGENT
    && forall p :: p in ManagedIn(f, e) ==> f.projects[p].published && f.projects[p].observation.Some?
  }

  lemma ReceivedShown(f: F.Fleet, id: Uuid, sessionId: Uuid, v: Inventory, g: F.Fleet, e: Uuid)
    requires PageReceived(f, id, sessionId, v, g) && Shown(f, e) && (e != id || !g.revisions[id].complete)
    ensures Shown(g, e)
  {
    assert ManagedIn(g, e) == ManagedIn(f, e);
  }

  lemma CommittedShown(g: F.Fleet, id: Uuid, all: set<Uuid>, now: int)
    requires id in g.revisions && |all| <= MANAGED_PROJECTS_PER_AGENT
    requires forall p :: p in all ==>
             p in g.projects && g.projects[p].environmentId == id && g.projects[p].observation.Some?
    ensures Shown(Committed(g, id, all, now), id)
  {
    CommittedManaged(g, id, all, now, id);
  }

  lemma ReceiveKeeps(f: F.Fleet, id: Uuid, sessionId: Uuid, v: Inventory, now: int)
    requires Ready(f, id, sessionId) && ValidInventory(v) && ReceiveObservation(f, id, sessionId, v, now).Some?
    requires Shown(f, id)
    ensures var g := ReceiveObservation(f, id, sessionId, v, now).value;
            && PageReceived(f, id, sessionId, v, g)
            && P.WellBehaved(g.ledger) && (forall c :: CommandInv(g, c)) && PagesInv(g, id) && Shown(g, id)
  {
    hide P.WellBehaved, CommandInv, PagesInv, BeginPage, ReceiveObservation, ValidInventory, IdsOf, DistinctIds,
      Committed, PageReceived, Shown, Uploaded, OnlyObserves, DistinctPages;
    var g, rows := PageStored(f, id, sessionId, v, now);
    ReceiveBegins(f, id, sessionId, v, now);
    BegunPage(f, id, sessionId, v);
    StoredIsReceived(f, id, sessionId, v, g);
    StoredSessions(f, id, sessionId, v, g);
    var all := SetOf(IdsOf(rows));
    if |rows| == v.pageCount {
      UploadedRows(f, id, sessionId, v, rows);
      CommittedIsReceived(f, id, sessionId, v, g, all, now);
      CommittedLedger(g, id, all, now);
      forall c ensures CommandInv(Committed(g, id, all, now), c) { CommittedCommands(g, id, all, now, c); }
      CommittedPages(g, id, all, now);
      SetOfIds(IdsOf(rows));
      CommittedShown(g, id, all, now);
    } else {
      FewerPages(f, id, sessionId, v);
      StoredKeepsPages(f, id, g, rows);
      ReceivedShown(f, id, sessionId, v, g, id);
    }
  }

  lemma ReceiveBegins(f: F.Fleet, id: Uuid, sessionId: Uuid, v: Inventory, now: int)
    requires ReceiveObservation(f, id, sessionId, v, now).Some?
    ensures BeginPage(f, id, sessionId, v).Some?
  {
  }

  lemma StoredSessions(f: F.Fleet, id: Uuid, sessionId: Uuid, v: Inventory, g: F.Fleet)
    requires PageReceived(f, id, sessionId, v, g)
    ensures g.sessions == f.sessions
  {
  }

  lemma FewerPages(f: F.Fleet, id: Uuid, sessionId: Uuid, v: Inventory)
    requires BeginPage(f, id, sessionId, v).Some? && PagesInv(f, id) && ValidInventory(v)
    ensures |Rows(BeginPage(f, id, sessionId, v).value, id)| < v.pageCount
  {
  }

  // ----- the heartbeat around it -----

  /** The session and environment of a heartbeat that was taken. */
  function Renewed(g: F.Fleet, id: Uuid, sequence: int, now: int): F.Fleet
    requires id in g.sessions && id in g.environments
  {
    g.(sessions := g.sessions[id := g.sessions[id].(sequence := sequence, expiresAt := now + SESSION_LIFETIME_MS)],
       environments := g.environments[id := g.environments[id].(connection := Online, lastContact := Some(now))])
  }

  lemma RenewedKeeps(g: F.Fleet, id: Uuid, sequence: int, now: int, e: Uuid)
    requires id in g.sessions && id in g.environments && g.environments[id].enrollment == Enrolled
    ensures EnvironmentInv(g, e) ==> EnvironmentInv(Renewed(g, id, sequence, now), e)
    ensures PagesInv(g, e) ==> PagesInv(Renewed(g, id, sequence, now), e)
    ensures CommandInv(g, e) ==> CommandInv(Renewed(g, id, sequence, now), e)
    ensures ManagedIn(Renewed(g, id, sequence, now), e) == ManagedIn(g, e)
  {
    assert Rows(Renewed(g, id, sequence, now), e) == Rows(g, e);
  }

  /** The heartbeat itself: what it read, and what it left. */
  ghost predicate Beats(f: F.Fleet, r: Request, g: F.Fleet) {
    && r.DoObserve? && ValidInventory(r.v)
    && r.id in f.sessions && f.sessions[r.id].sessionId == r.sessionId && f.sessions[r.id].agentId == r.agentId
    && r.id in f.environments && f.environments[r.id].enrollment == Enrolled
    && var s := f.sessions[r.id].sequence;
    && if r.sequence > s then
         && ReceiveObservation(f, r.id, r.sessionId, r.v, r.now).Some?
         && var o := ReceiveObservation(f, r.id, r.sessionId, r.v, r.now).value;
         r.id in o.sessions && r.id in o.environments && o.sessions == f.sessions && o.environments == f.environments
         && g == Renewed(o, r.id, r.sequence, r.now)
       else g == Renewed(f, r.id, s, r.now)
  }

  lemma ReceiveLeavesSessions(f: F.Fleet, id: Uuid, sessionId: Uuid, v: Inventory, now: int)
    requires ReceiveObservation(f, id, sessionId, v, now).Some?
    requires Ready(f, id, sessionId) && ValidInventory(v) && Shown(f, id)
    ensures var o := ReceiveObservation(f, id, sessionId, v, now).value;
            o.sessions == f.sessions && o.environments == f.environments && o.credentials == f.credentials
              && o.tokens == f.tokens
  {
    hide Ready, ReceiveObservation, Shown;
    ReceiveKeeps(f, id, sessionId, v, now);
  }

  lemma ObserveBeats(s: Moment, r: Request)
    requires Inv(s) && r.DoObserve? && Effect(s.fleet, r).Some?
    ensures Beats(s.fleet, r, Effect(s.fleet, r).value)
  {
    hide ReceiveObservation, Inv, ValidInventory;
    if r.sequence > s.fleet.sessions[r.id].sequence {
      InvIsReady(s, r.id);
      ReceiveLeavesSessions(s.fleet, r.id, r.sessionId, r.v, r.now);
    }
  }

  lemma InvIsReady(s: Moment, id: Uuid)
    requires Inv(s)
    ensures id in s.fleet.sessions ==> Ready(s.fleet, id, s.fleet.sessions[id].sessionId)
    ensures forall e :: Shown(s.fleet, e)
  {
    hide P.WellBehaved, CommandInv, PagesInv, HistoryInv, SequenceInv, EnvironmentInv;
    assert PagesInv(s.fleet, id);
    forall e ensures Shown(s.fleet, e) { assert ManagedInv(s, e); }
  }
}
