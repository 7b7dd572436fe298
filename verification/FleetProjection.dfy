/** What one page of an inventory is refused for, and what it leaves of the projection, row by row. */
module FleetProjection {
  import opened Prelude
  import opened Wire
  import opened F = Fleet
  import opened FleetObservation
  import D = LedgerDecisions
  import L = Ledger
  import P = LedgerProofs

  // ----- what is refused -----

  /** The pages already stored that this one joins. */
  function Joined(f: F.Fleet, id: Uuid, sessionId: Uuid, v: Inventory): seq<Page> {
    if id in f.revisions && f.revisions[id].sessionId == sessionId && f.revisions[id].revisionId == v.revisionId
    then Rows(f, id) else []
  }

  /** The page goes on with its revision, or is the first of a new one. */
  predicate Follows(f: F.Fleet, id: Uuid, sessionId: Uuid, v: Inventory) {
    if id in f.revisions && f.revisions[id].sessionId == sessionId && f.revisions[id].revisionId == v.revisionId
    then !f.revisions[id].complete && f.revisions[id].pageCount == v.pageCount
    else v.pageIndex == 0
  }

  /** The project was identified for the agent of this session, under this very name. */
  predicate Known(f: F.Fleet, id: Uuid, o: Observation) {
    && o.projectId in f.projects && id in f.sessions
    && f.projects[o.projectId].environmentId == id
    && f.projects[o.projectId].agentId == f.sessions[id].agentId
    && f.projects[o.projectId].localProjectId == o.localProjectId
  }

  /** The same rows as far as identification goes. */
  ghost predicate SameIdentities(f: F.Fleet, g: F.Fleet) {
    && g.sessions == f.sessions && g.projects.Keys == f.projects.Keys
    && forall p :: p in f.projects ==> SameName(f.projects[p], g.projects[p])
  }

  lemma ObservedIdentities(f: F.Fleet, o: Observation, now: int)
    requires o.projectId in f.projects
    ensures SameIdentities(f, Observed(f, o, now))
  {
  }

  lemma {:induction false} ObservedAllDecided(f: F.Fleet, id: Uuid, observations: seq<Observation>, now: int)
    ensures ObservedAll(f, id, observations, now).Some? <==>
              forall k :: 0 <= k < |observations| ==> Known(f, id, observations[k])
    ensures ObservedAll(f, id, observations, now).Some? ==>
              SameIdentities(f, ObservedAll(f, id, observations, now).value)
  {
    if observations != [] {
      var n := |observations| - 1;
      var (rest, last) := (observations[..n], observations[n]);
      ObservedAllDecided(f, id, rest, now);
      if ObservedAll(f, id, rest, now).Some? {
        var g := ObservedAll(f, id, rest, now).value;
        assert Known(g, id, last) <==> Known(f, id, last);
        assert Accepts(g, id, last) <==> Known(g, id, last);
        if Accepts(g, id, last) { ObservedIdentities(g, last, now); }
        assert forall k :: 0 <= k < n ==> observations[k] == rest[k];
      } else {
        var k :| 0 <= k < n && !Known(f, id, rest[k]);
        assert observations[k] == rest[k];
      }
    }
  }

  /** A page is taken if and only if it follows its revision, was not stored before, repeats no project, stays within
      a hundred projects and names only projects identified for the agent of its session. */
  lemma PageDecided(f: F.Fleet, id: Uuid, sessionId: Uuid, v: Inventory, now: int)
    ensures var rows := Joined(f, id, sessionId, v);
            ReceiveObservation(f, id, sessionId, v, now).Some? <==>
              && Follows(f, id, sessionId, v)
              && (forall k :: 0 <= k < |rows| ==> rows[k].index != v.pageIndex)
              && |IdsOf(rows)| + |v.projects| <= 100
              && (forall k :: 0 <= k < |v.projects| ==> v.projects[k].projectId !in IdsOf(rows))
              && forall k :: 0 <= k < |v.projects| ==> Known(f, id, v.projects[k])
  {
    hide IdsOf, ObservedAll;
    BeginningDecided(f, id, sessionId, v);
    if BeginPage(f, id, sessionId, v).Some? {
      var b := BeginPage(f, id, sessionId, v).value;
      ObservedAllDecided(b, id, v.projects, now);
      assert forall k :: 0 <= k < |v.projects| ==> (Known(b, id, v.projects[k]) <==> Known(f, id, v.projects[k]));
      if ObservedAll(b, id, v.projects, now).Some? { ObservingKeepsRevisions(b, id, v.projects, now); }
    }
  }

  lemma BeginningDecided(f: F.Fleet, id: Uuid, sessionId: Uuid, v: Inventory)
    ensures BeginPage(f, id, sessionId, v).Some? <==> Follows(f, id, sessionId, v)
    ensures BeginPage(f, id, sessionId, v).Some? ==>
              var b := BeginPage(f, id, sessionId, v).value;
              && Rows(b, id) == Joined(f, id, sessionId, v) && id in b.revisions
              && b == f.(pages := b.pages, revisions := b.revisions) && !b.revisions[id].complete
  {
  }

  lemma {:induction false} ObservingKeepsRevisions(f: F.Fleet, id: Uuid, observations: seq<Observation>, now: int)
    requires ObservedAll(f, id, observations, now).Some?
    ensures var g := ObservedAll(f, id, observations, now).value;
            g == f.(projects := g.projects, ledger := g.ledger)
  {
    if observations != [] { ObservingKeepsRevisions(f, id, observations[..|observations| - 1], now); }
  }

  // ----- what is shown -----

  /** What is shown once this was sent after that: a missing snapshot keeps the last one with its time, and says so
      unless a reason was sent. */
  ghost predicate ShownAfter(o: Observation, previous: Option<Observation>, q: Observation) {
    var kept := o.snapshot.None? && previous.Some? && previous.value.snapshot.Some?;
    && q.projectId == o.projectId && q.localProjectId == o.localProjectId && q.validation == o.validation
    && q.snapshot == (if kept then previous.value.snapshot else o.snapshot)
    && q.snapshotObservedAt == (if kept then previous.value.snapshotObservedAt else o.snapshotObservedAt)
    && q.snapshotError == (if kept && o.snapshotError.None?
                           then Some(Diagnostic(LogUnavailable, "Latest snapshot unavailable")) else o.snapshotError)
  }

  /** The row shows this observation as received now. */
  ghost predicate Refreshed(p: Project, q: Project, o: Observation, now: int) {
    && q.observation.Some? && ShownAfter(o, p.observation, q.observation.value) && q.receivedAt == Some(now)
    && q == p.(observation := q.observation, receivedAt := q.receivedAt)
  }

  predicate Named(observations: seq<Observation>, p: Uuid) {
    exists k :: 0 <= k < |observations| && observations[k].projectId == p
  }

  lemma ObservedRefreshes(f: F.Fleet, o: Observation, now: int)
    requires o.projectId in f.projects
    ensures Refreshed(f.projects[o.projectId], Observed(f, o, now).projects[o.projectId], o, now)
    ensures forall p :: p in f.projects && p != o.projectId ==> Observed(f, o, now).projects[p] == f.projects[p]
  {
  }

  /** Exactly these rows were refreshed. */
  ghost predicate OnlyRefreshed(f: F.Fleet, g: F.Fleet, observations: seq<Observation>, now: int) {
    && g.projects.Keys == f.projects.Keys
    && (forall k :: 0 <= k < |observations| ==>
          && observations[k].projectId in f.projects
          && Refreshed(f.projects[observations[k].projectId], g.projects[observations[k].projectId], observations[k],
                       now))
    && forall p :: p in f.projects && !Named(observations, p) ==> g.projects[p] == f.projects[p]
  }

  lemma OneMoreRefreshed(f: F.Fleet, g: F.Fleet, h: F.Fleet, rest: seq<Observation>, last: Observation, now: int)
    requires OnlyRefreshed(f, g, rest, now) && h.projects.Keys == g.projects.Keys && last.projectId in g.projects
    requires Refreshed(g.projects[last.projectId], h.projects[last.projectId], last, now)
    requires forall p :: p in g.projects && p != last.projectId ==> h.projects[p] == g.projects[p]
    requires forall k :: 0 <= k < |rest| ==> rest[k].projectId != last.projectId
    ensures OnlyRefreshed(f, h, rest + [last], now)
  {
    hide Refreshed;
    var all := rest + [last];
    assert !Named(rest, last.projectId);
    forall p | p in f.projects && !Named(all, p) ensures h.projects[p] == f.projects[p] {
      assert all[|rest|].projectId != p;
      forall k | 0 <= k < |rest| ensures rest[k].projectId != p { assert all[k] == rest[k]; }
    }
  }

  lemma {:induction false} ObservedAllShows(f: F.Fleet, id: Uuid, observations: seq<Observation>, now: int)
    requires ObservedAll(f, id, observations, now).Some?
    requires forall i, j :: 0 <= i < j < |observations| ==> observations[i].projectId != observations[j].projectId
    ensures OnlyRefreshed(f, ObservedAll(f, id, observations, now).value, observations, now)
  {
    if observations != [] {
      hide Refreshed, Observed, OnlyRefreshed, Named;
      var n := |observations| - 1;
      var (rest, last) := (observations[..n], observations[n]);
      ObservedAllShows(f, id, rest, now);
      var g := ObservedAll(f, id, rest, now).value;
      ObservedRefreshes(g, last, now);
      ObservedKeys(g, last, now);
      OneMoreRefreshed(f, g, Observed(g, last, now), rest, last, now);
      assert rest + [last] == observations;
    }
  }

  lemma ObservedKeys(f: F.Fleet, o: Observation, now: int)
    requires o.projectId in f.projects
    ensures Observed(f, o, now).projects.Keys == f.projects.Keys
  {
  }

  /** What the page leaves of a row: its observation and, where it completes the revision, whether it is managed and
      was ever published. */
  ghost predicate LeftBy(p: Project, q: Project, id: Uuid, completes: bool, named: bool) {
    && SameName(p, q)
    && q.managed == (if completes && p.environmentId == id then named else p.managed)
    && q.published == (p.published || (completes && p.environmentId == id && named))
  }

  lemma CommittedLeaves(f: F.Fleet, id: Uuid, all: set<Uuid>, now: int, p: Uuid)
    requires id in f.revisions && p in f.projects
    ensures var g := Committed(f, id, all, now);
            && p in g.projects && LeftBy(f.projects[p], g.projects[p], id, true, p in all)
            && g.projects[p].observation == f.projects[p].observation
               && g.projects[p].receivedAt == f.projects[p].receivedAt
            && id in g.revisions && g.revisions[id].complete
  {
  }

  /** A page that is taken refreshes exactly its own projects; it changes what is managed exactly when it completes its
      revision, and then to exactly the projects of all its pages. */
  lemma PageShows(f: F.Fleet, id: Uuid, sessionId: Uuid, v: Inventory, now: int)
    requires ReceiveObservation(f, id, sessionId, v, now).Some?
    requires forall i, j :: 0 <= i < j < |v.projects| ==> v.projects[i].projectId != v.projects[j].projectId
    ensures var (g, rows) := (ReceiveObservation(f, id, sessionId, v, now).value, Joined(f, id, sessionId, v));
            var completes := |rows| + 1 == v.pageCount;
            && g.projects.Keys == f.projects.Keys
            && (forall k :: 0 <= k < |v.projects| ==>
                  var p := v.projects[k].projectId;
                  && p in f.projects && g.projects[p].observation.Some? && g.projects[p].receivedAt == Some(now)
                  && ShownAfter(v.projects[k], f.projects[p].observation, g.projects[p].observation.value))
            && (forall p :: p in f.projects && !Named(v.projects, p) ==>
                  && g.projects[p].observation == f.projects[p].observation
                  && g.projects[p].receivedAt == f.projects[p].receivedAt)
            && (forall p :: p in f.projects ==>
                  LeftBy(f.projects[p], g.projects[p], id, completes, p in IdsOf(rows) || Named(v.projects, p)))
  {
    hide IdsOf, ObservedAll, Committed, ShownAfter, LeftBy;
    BeginningDecided(f, id, sessionId, v);
    var b := BeginPage(f, id, sessionId, v).value;
    var o := ObservedAll(b, id, v.projects, now).value;
    ObservedAllShows(b, id, v.projects, now);
    var rows := Joined(f, id, sessionId, v) + [Page(v.pageIndex, ProjectIds(v.projects))];
    var h := o.(pages := o.pages[id := rows]);
    var all := SetOf(IdsOf(rows));
    assert ReceiveObservation(f, id, sessionId, v, now)
           == Some(if |rows| == v.pageCount then Committed(h, id, all, now) else h);
    ObservingKeepsRevisions(b, id, v.projects, now);
    forall p | p in f.projects ensures LeftBy(f.projects[p], h.projects[p], id, false, p in all) {
      if Named(v.projects, p) {
        var k :| 0 <= k < |v.projects| && v.projects[k].projectId == p;
        RefreshedLeaves(f.projects[p], h.projects[p], v.projects[k], now, id, p in all);
      } else {
        SameLeaves(f.projects[p], id, p in all);
      }
    }
    UploadedOn(Joined(f, id, sessionId, v), v, all);
    if |rows| == v.pageCount {
      forall p | p in f.projects
        ensures p in Committed(h, id, all, now).projects
        ensures LeftBy(f.projects[p], Committed(h, id, all, now).projects[p], id, true, p in all)
        ensures Committed(h, id, all, now).projects[p].observation == h.projects[p].observation
        ensures Committed(h, id, all, now).projects[p].receivedAt == h.projects[p].receivedAt
      {
        CommittedLeaves(h, id, all, now, p);
        LeavesTwice(f.projects[p], h.projects[p], Committed(h, id, all, now).projects[p], id, p in all);
      }
      CommittedKeys(h, id, all, now);
    }
  }

  lemma RefreshedLeaves(p: Project, q: Project, o: Observation, now: int, id: Uuid, named: bool)
    requires Refreshed(p, q, o, now)
    ensures LeftBy(p, q, id, false, named) && q.observation.Some? && q.receivedAt == Some(now)
    ensures ShownAfter(o, p.observation, q.observation.value)
  {
    hide ShownAfter;
  }

  lemma SameLeaves(p: Project, id: Uuid, named: bool)
    ensures LeftBy(p, p, id, false, named)
  {
  }

  lemma LeavesTwice(p: Project, q: Project, r: Project, id: Uuid, named: bool)
    requires LeftBy(p, q, id, false, named) && LeftBy(q, r, id, true, named)
    ensures LeftBy(p, r, id, true, named)
  {
  }

  lemma CommittedKeys(f: F.Fleet, id: Uuid, all: set<Uuid>, now: int)
    requires id in f.revisions
    ensures Committed(f, id, all, now).projects.Keys == f.projects.Keys
  {
  }

  lemma UploadedOn(rows: seq<Page>, v: Inventory, all: set<Uuid>)
    requires all == SetOf(IdsOf(rows + [Page(v.pageIndex, ProjectIds(v.projects))]))
    ensures forall p :: p in all <==> p in IdsOf(rows) || Named(v.projects, p)
  {
    hide IdsOf;
    IdsWithPage(rows, Page(v.pageIndex, ProjectIds(v.projects)));
    forall p ensures p in ProjectIds(v.projects) <==> Named(v.projects, p) {
      if Named(v.projects, p) {
        var k :| 0 <= k < |v.projects| && v.projects[k].projectId == p;
        assert ProjectIds(v.projects)[k] == p;
      }
    }
  }

  // ----- what expires -----

  /** One of these observations says that the project, managed until now, is managed no more. */
  predicate Disowned(f: F.Fleet, observations: seq<Observation>, p: Uuid) {
    && p in f.projects && f.projects[p].managed
    && exists k :: 0 <= k < |observations| && observations[k].projectId == p
                   && observations[k].validation == InvalidProject(ProjectUnmanaged)
  }

  /** Exactly the accepted commands of these projects expired. */
  ghost predicate Expires(l: L.Ledger, m: L.Ledger, projects: Uuid -> bool) {
    && m.rows.Keys == l.rows.Keys
    && forall c :: c in l.rows ==>
         m.rows[c] == if l.rows[c].state == Accepted && projects(l.rows[c].command.projectId)
                      then l.rows[c].(state := Expired) else l.rows[c]
  }

  lemma InvalidatedExpire(l: L.Ledger, p: Uuid, ids: set<Uuid>, dropped: set<Uuid>, now: int)
    requires ids == set c | c in l.rows && l.rows[c].command.projectId in dropped
    ensures Expires(l, L.InvalidateProject(l, p, now), (q: Uuid) => q == p)
    ensures Expires(l, L.Invalidate(l, ids, now), (q: Uuid) => q in dropped)
  {
  }

  lemma ExpireTogether(l: L.Ledger, m: L.Ledger, n: L.Ledger, a: Uuid -> bool, b: Uuid -> bool, c: Uuid -> bool)
    requires Expires(l, m, a) && Expires(m, n, b) && forall p :: c(p) <==> a(p) || b(p)
    ensures Expires(l, n, c)
  {
  }

  lemma {:induction false} ObservedAllExpires(f: F.Fleet, id: Uuid, observations: seq<Observation>, now: int)
    requires ObservedAll(f, id, observations, now).Some?
    ensures var g := ObservedAll(f, id, observations, now).value;
            && Expires(f.ledger, g.ledger, (p: Uuid) => Disowned(f, observations, p))
            && g.projects.Keys == f.projects.Keys
            && forall p :: p in f.projects ==> g.projects[p].managed == f.projects[p].managed
                                               && g.projects[p].environmentId == f.projects[p].environmentId
  {
    if observations != [] {
      var n := |observations| - 1;
      var (rest, last) := (observations[..n], observations[n]);
      ObservedAllExpires(f, id, rest, now);
      var g := ObservedAll(f, id, rest, now).value;
      var h := Observed(g, last, now);
      OneObservedExpires(g, last, now);
      var says := g.projects[last.projectId].managed && last.validation == InvalidProject(ProjectUnmanaged);
      forall p ensures Disowned(f, observations, p)
                       <==> Disowned(f, rest, p) || (says && p == last.projectId)
      {
        DisownedOneMore(f, rest, last, p);
        assert rest + [last] == observations;
      }
      ExpireTogether(f.ledger, g.ledger, h.ledger, (p: Uuid) => Disowned(f, rest, p),
                     (p: Uuid) => says && p == last.projectId,
                     (p: Uuid) => Disowned(f, observations, p));
    }
  }

  lemma DisownedOneMore(f: F.Fleet, rest: seq<Observation>, last: Observation, p: Uuid)
    ensures Disowned(f, rest + [last], p)
            <==> Disowned(f, rest, p)
                 || (p == last.projectId && p in f.projects && f.projects[p].managed
                     && last.validation == InvalidProject(ProjectUnmanaged))
  {
    var all := rest + [last];
    assert all[|rest|] == last;
    if Disowned(f, rest, p) {
      var k :| 0 <= k < |rest| && rest[k].projectId == p && rest[k].validation == InvalidProject(ProjectUnmanaged);
      assert all[k] == rest[k];
    }
  }

  lemma OneObservedExpires(f: F.Fleet, o: Observation, now: int)
    requires o.projectId in f.projects
    ensures var g := Observed(f, o, now);
            && Expires(f.ledger, g.ledger,
                       (p: Uuid) => f.projects[o.projectId].managed && o.validation == InvalidProject(ProjectUnmanaged)
                            && p == o.projectId)
            && g.projects.Keys == f.projects.Keys
            && forall p :: p in f.projects ==> g.projects[p].managed == f.projects[p].managed
                                               && g.projects[p].environmentId == f.projects[p].environmentId
  {
    InvalidatedExpire(f.ledger, o.projectId, {}, {}, now);
  }

  /** The project was managed here, and the revision this page completes does not name it. */
  predicate Dismissed(f: F.Fleet, id: Uuid, sessionId: Uuid, v: Inventory, p: Uuid) {
    && |Joined(f, id, sessionId, v)| + 1 == v.pageCount
    && p in f.projects && f.projects[p].environmentId == id && f.projects[p].managed
    && p !in IdsOf(Joined(f, id, sessionId, v)) && !Named(v.projects, p)
  }

  /** A page that is taken expires exactly the accepted commands of managed projects that it reports as unmanaged, or
      that the revision it completes does not name. */
  lemma PageExpires(f: F.Fleet, id: Uuid, sessionId: Uuid, v: Inventory, now: int)
    requires ReceiveObservation(f, id, sessionId, v, now).Some?
    ensures Expires(f.ledger, ReceiveObservation(f, id, sessionId, v, now).value.ledger,
                    (p: Uuid) => Disowned(f, v.projects, p) || Dismissed(f, id, sessionId, v, p))
  {
    hide IdsOf, ObservedAll, Disowned, Expires;
    BeginningDecided(f, id, sessionId, v);
    var b := BeginPage(f, id, sessionId, v).value;
    var o := ObservedAll(b, id, v.projects, now).value;
    ObservedAllExpires(b, id, v.projects, now);
    ObservingKeepsRevisions(b, id, v.projects, now);
    SameDisowned(f, b, v.projects);
    var rows := Joined(f, id, sessionId, v) + [Page(v.pageIndex, ProjectIds(v.projects))];
    var all := SetOf(IdsOf(rows));
    UploadedOn(Joined(f, id, sessionId, v), v, all);
    var h := o.(pages := o.pages[id := rows]);
    var dropped := if |rows| == v.pageCount then Dropped(h, id, all) else {};
    forall p ensures p in dropped <==> Dismissed(f, id, sessionId, v, p) {
    }
    var ids := set c | c in h.ledger.rows && h.ledger.rows[c].command.projectId in dropped;
    InvalidatedExpire(h.ledger, 0, ids, dropped, now);
    var g := ReceiveObservation(f, id, sessionId, v, now).value;
    if |rows| != v.pageCount { NothingExpires(h.ledger); }
    ExpireTogether(f.ledger, h.ledger, g.ledger, (p: Uuid) => Disowned(b, v.projects, p), (p: Uuid) => p in dropped,
                   (p: Uuid) => Disowned(f, v.projects, p) || Dismissed(f, id, sessionId, v, p));
  }

  lemma NothingExpires(l: L.Ledger)
    ensures Expires(l, l, (p: Uuid) => p in {})
  {
  }

  lemma SameDisowned(f: F.Fleet, g: F.Fleet, observations: seq<Observation>)
    requires f.projects == g.projects
    ensures forall p :: Disowned(f, observations, p) == Disowned(g, observations, p)
  {
  }

  // ----- what a submission sees -----

  /** A command is accepted only for a project that its live session's agent reported in the last thirty seconds, over
      a connection heard from in the last thirty seconds, managed under the enrollment in force and, to be started,
      valid. */
  lemma SubmissionSeesLiveTarget(f: F.Fleet, id: Uuid, projectId: Uuid, key: string, operation: Operation, now: int)
    requires P.WellBehaved(f.ledger) && id !in f.ledger.rows
    requires forall k :: k in f.ledger.rows ==> f.ledger.rows[k].command.idempotencyKey != key
    requires L.Submit(f.ledger, id, projectId, key, operation, PeersOf(f, projectId, now), now).1.Ok?
    ensures projectId in f.projects
    ensures var p := f.projects[projectId];
            var e := p.environmentId;
            && p.managed && p.observation.Some? && p.observation.value.validation != InvalidProject(ProjectUnmanaged)
            && (operation == Start ==> p.observation.value.validation.ValidProject?)
            && e in f.environments && f.environments[e].enrollment == Enrolled && f.environments[e].connection == Online
            && f.environments[e].lastContact.Some? && now < f.environments[e].lastContact.value + 30_000
            && e in f.sessions && now < f.sessions[e].expiresAt && f.sessions[e].agentId == p.agentId
            && p.receivedAt.Some? && now < p.receivedAt.value + 30_000
            && e in f.credentials && f.credentials[e].agentId == p.agentId
            && L.Submit(f.ledger, id, projectId, key, operation, PeersOf(f, projectId, now),
                        now).0.rows[id].command.sessionId
               == f.sessions[e].sessionId
  {
    hide L.Submit, P.WellBehaved;
    LedgerIsValid(f.ledger);
    D.SubmissionDecided(f.ledger, id, projectId, key, operation, PeersOf(f, projectId, now), now);
  }

  lemma LedgerIsValid(l: L.Ledger)
    requires P.WellBehaved(l)
    ensures P.Valid(l)
  {
  }
}
