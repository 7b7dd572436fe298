/** The agent's side of an inventory: cutting it into pages that fit, and what the fleet makes of them. */
module Paging {
  import opened Prelude
  import opened Wire
  import opened Evidence
  import opened F = Fleet
  import opened JsonBytes
  import FleetObservation
  import FleetRuns
  import Json

  const OBSERVATION_BODY_BYTES := 4 * 1024 * 1024
  const MAX_SAFE_INTEGER := 9007199254740991

  // ----- what a page looks like on the wire -----

  /** What every page of one inventory has in common, and how an observation is encoded. */
  datatype Header = Header(
    envelope: Members, observedAt: Json.Text, revisionId: Json.Text, of: F.Observation -> Json.Value)

  function Encoded(h: Header, entries: seq<F.Observation>): seq<Json.Value> {
    seq(|entries|, i requires 0 <= i < |entries| => h.of(entries[i]))
  }

  /** A request identifier is 36 characters, whichever is drawn. */
  predicate Drawn(requestId: Json.Text) { |requestId| == 36 && forall i :: 0 <= i < 36 ==> Literal(requestId[i]) }

  function Zeros(n: nat): (t: Json.Text)
    ensures |t| == n && forall i :: 0 <= i < n ==> t[i] == 0x30
  {
    if n == 0 then [] else [0x30] + Zeros(n - 1)
  }

  const RESERVED_ID := Zeros(36)

  function InventoryJson(h: Header, entries: seq<F.Observation>, index: nat, count: nat): Json.Value {
    Json.Object([Field("revisionId", Json.String(h.revisionId)), Field("pageIndex", Json.Number(Natural(index))),
                 Field("pageCount", Json.Number(Natural(count))), Field("projects", Json.Array(Encoded(h, entries)))])
  }

  function PageJson(h: Header, requestId: Json.Text, entries: seq<F.Observation>, sequence: nat, index: nat, count: nat)
    : Json.Value
  {
    Json.Object(h.envelope + [
      Field("requestId", Json.String(requestId)), Field("sequence", Json.Number(Natural(sequence))),
      Field("observedAt", Json.String(h.observedAt)), Field("inventory", InventoryJson(h, entries, index, count))])
  }

  /** The bytes of the body of a page. */
  function BodySize(
    h: Header, requestId: Json.Text, entries: seq<F.Observation>, sequence: nat, index: nat, count: nat): nat {
    Bytes(Json.Render(PageJson(h, requestId, entries, sequence, index, count)))
  }

  /** The same with the widest numbers a page may carry. */
  function ReservedSize(h: Header, entries: seq<F.Observation>): nat {
    BodySize(h, RESERVED_ID, entries, MAX_SAFE_INTEGER, 99, 100)
  }

  /** The header and every observation are JSON values. */
  ghost predicate Printable(h: Header) {
    Numbered(Json.Object(h.envelope)) && forall o: F.Observation :: Numbered(h.of(o))
  }

  // ----- how large it is -----

  function EntriesSize(h: Header, entries: seq<F.Observation>): nat {
    Bytes(Json.Render(Json.Array(Encoded(h, entries))))
  }

  function KeySize(name: string): nat
    requires forall i :: 0 <= i < |name| ==> name[i] < 128 as char
  {
    Bytes(Json.Quote(Ascii(name))) + 2
  }

  lemma FourMembers(a: Member, b: Member, c: Member, d: Member)
    requires a.item.Some? && b.item.Some? && c.item.Some? && d.item.Some?
    ensures MemberBytes([a, b, c, d])
            == FieldBytes(a.key, a.item.value) + FieldBytes(b.key, b.item.value) + FieldBytes(c.key, c.item.value)
               + FieldBytes(d.key, d.item.value)
  {
    hide FieldBytes, MemberBytes;
    FirstMember(a, [b, c, d]);
    FirstMember(b, [c, d]);
    FirstMember(c, [d]);
    FirstMember(d, []);
    assert [a] + [b, c, d] == [a, b, c, d] && [b] + [c, d] == [b, c, d] && [c] + [d] == [c, d] && [d] + [] == [d];
  }

  lemma FirstMember(m: Member, rest: Members)
    requires m.item.Some?
    ensures MemberBytes([m] + rest) == FieldBytes(m.key, m.item.value) + MemberBytes(rest)
    ensures rest == [] ==> MemberBytes(rest) == 0
  {
    hide FieldBytes;
    assert ([m] + rest)[1..] == rest;
  }

  lemma NumberSize(n: nat)
    ensures Bytes(Json.Render(Json.Number(Natural(n)))) == |Natural(n)|
    ensures Json.ValidToken(Natural(n))
  {
    PlainBytes(Natural(n));
  }

  lemma InventorySize(h: Header, entries: seq<F.Observation>, index: nat, count: nat)
    requires Printable(h)
    ensures Numbered(InventoryJson(h, entries, index, count))
    ensures Bytes(Json.Render(InventoryJson(h, entries, index, count)))
            == 1 + KeySize("revisionId") + Bytes(Json.Render(Json.String(h.revisionId))) + KeySize("pageIndex")
               + |Natural(index)| + KeySize("pageCount") + |Natural(count)| + KeySize("projects")
               + EntriesSize(h, entries)
  {
    hide Bytes, Json.Render, Json.Quote, Natural, MemberBytes, Json.ValidToken;
    NumberSize(index);
    NumberSize(count);
    var members := InventoryJson(h, entries, index, count).members;
    assert forall i :: 0 <= i < |entries| ==> Numbered(h.of(entries[i]));
    assert Numbered(Json.Array(Encoded(h, entries)));
    FourMembers(members[0], members[1], members[2], members[3]);
    assert members == [members[0], members[1], members[2], members[3]];
    assert members[0].item.Some?;
    ObjectBytes(members);
  }

  /** Everything in a page but its numbers and observations. */
  function Around(h: Header): nat {
    1 + MemberBytes(h.envelope) + KeySize("requestId") + 38 + KeySize("sequence")
    + KeySize("observedAt") + Bytes(Json.Render(Json.String(h.observedAt))) + KeySize("inventory")
    + 1 + KeySize("revisionId") + Bytes(Json.Render(Json.String(h.revisionId)))
    + KeySize("pageIndex") + KeySize("pageCount") + KeySize("projects")
  }

  /** The length of a printed page: its numbers stand in decimal, whichever request identifier was drawn. */
  lemma PageSize(h: Header, requestId: Json.Text, entries: seq<F.Observation>, sequence: nat, index: nat, count: nat)
    requires Printable(h) && Drawn(requestId)
    ensures BodySize(h, requestId, entries, sequence, index, count)
            == Around(h) + |Natural(sequence)| + |Natural(index)| + |Natural(count)| + EntriesSize(h, entries)
  {
    hide Bytes, Json.Render, Json.Quote, Natural, MemberBytes, Json.ValidToken, InventoryJson, EntriesSize;
    var page := PageJson(h, requestId, entries, sequence, index, count);
    NumberSize(sequence);
    LiteralString(requestId);
    InventorySize(h, entries, index, count);
    var last := page.members[|h.envelope|..];
    assert last == [last[0], last[1], last[2], last[3]];
    FourMembers(last[0], last[1], last[2], last[3]);
    MemberBytesOfSum(h.envelope, last);
    assert page.members == h.envelope + last;
    JoinsNumbered(h.envelope, last);
    assert page.members[|h.envelope|].item.Some?;
    ObjectBytes(page.members);
  }

  lemma JoinsNumbered(a: Members, b: Members)
    requires Numbered(Json.Object(a)) && Numbered(Json.Object(b))
    ensures Numbered(Json.Object(a + b))
  {
  }

  lemma {:induction false} DigitsGrow(a: nat, b: nat)
    requires a <= b
    ensures |Natural(a)| <= |Natural(b)|
  {
    if b >= 10 && a >= 10 { DigitsGrow(a / 10, b / 10); }
  }

  /** Reserving the widest numbers keeps every page within the limit as it is really numbered. */
  lemma ReservationCovers(
    h: Header, requestId: Json.Text, entries: seq<F.Observation>, sequence: nat, index: nat, count: nat)
    requires Printable(h) && Drawn(requestId) && sequence <= MAX_SAFE_INTEGER && index <= 99 && count <= 100
    ensures BodySize(h, requestId, entries, sequence, index, count) <= ReservedSize(h, entries)
  {
    hide BodySize, Natural, EntriesSize, Around, Printable;
    PageSize(h, requestId, entries, sequence, index, count);
    PageSize(h, RESERVED_ID, entries, MAX_SAFE_INTEGER, 99, 100);
    DigitsGrow(sequence, MAX_SAFE_INTEGER);
    DigitsGrow(index, 99);
    DigitsGrow(count, 100);
  }

  lemma EntriesTogether(h: Header, entries: seq<F.Observation>, p: F.Observation)
    requires Printable(h)
    ensures EntriesSize(h, [p]) <= EntriesSize(h, entries + [p])
  {
    hide Bytes, Json.Render;
    assert Encoded(h, entries + [p]) == Encoded(h, entries) + Encoded(h, [p]);
    ItemBytesOfSum(Encoded(h, entries), Encoded(h, [p]));
    ArrayBytes(Encoded(h, entries + [p]));
    ArrayBytes(Encoded(h, [p]));
  }

  function Joined(groups: seq<seq<F.Observation>>): seq<F.Observation> {
    if groups == [] then [] else Joined(groups[..|groups| - 1]) + groups[|groups| - 1]
  }

  lemma JoinedOneMore(groups: seq<seq<F.Observation>>, group: seq<F.Observation>)
    ensures Joined(groups + [group]) == Joined(groups) + group
  {
    assert (groups + [group])[..|groups|] == groups;
  }

  /** Distinct projects under distinct local names, no more than an agent may manage. */
  ghost predicate Uploadable(projects: seq<F.Observation>) {
    && |projects| <= MANAGED_PROJECTS_PER_AGENT
    && (forall i, j :: 0 <= i < j < |projects| ==> projects[i].projectId != projects[j].projectId)
    && (forall i, j :: 0 <= i < j < |projects| ==> projects[i].localProjectId != projects[j].localProjectId)
  }

  ghost predicate EachFits(h: Header, projects: seq<F.Observation>) {
    forall k :: 0 <= k < |projects| ==> ReservedSize(h, [projects[k]]) <= OBSERVATION_BODY_BYTES
  }

  /** The groups are the projects in order; only a lone group may be empty; each fits with numbers reserved, and ends
      where the next project would no longer fit. */
  ghost predicate Grouped(h: Header, projects: seq<F.Observation>, groups: seq<seq<F.Observation>>) {
    && groups != [] && Joined(groups) == projects
    && (forall k :: 0 <= k < |groups| ==> groups[k] != [] || |groups| == 1)
    && (forall k :: 0 <= k < |groups| ==> groups[k] == [] || ReservedSize(h, groups[k]) <= OBSERVATION_BODY_BYTES)
    && |groups| <= 1 + |projects|
    && (projects != [] ==> |groups| <= |projects|)
    && (forall k :: 1 <= k < |groups| ==>
          groups[k] != [] && ReservedSize(h, groups[k - 1] + [groups[k][0]]) > OBSERVATION_BODY_BYTES)
  }

  lemma JoinedGrown(groups: seq<seq<F.Observation>>, p: F.Observation)
    requires groups != []
    ensures var (n, last) := (|groups| - 1, groups[|groups| - 1]);
            Joined(groups[n := last + [p]]) == Joined(groups) + [p]
  {
    hide Joined;
    var (n, last) := (|groups| - 1, groups[|groups| - 1]);
    assert groups[n := last + [p]] == groups[..n] + [last + [p]];
    JoinedOneMore(groups[..n], last + [p]);
    assert groups == groups[..n] + [last];
    JoinedOneMore(groups[..n], last);
    assert Joined(groups[..n]) + (last + [p]) == (Joined(groups[..n]) + last) + [p];
  }

  lemma GroupGrown(h: Header, projects: seq<F.Observation>, groups: seq<seq<F.Observation>>, p: F.Observation)
    requires Grouped(h, projects, groups) && ReservedSize(h, groups[|groups| - 1] + [p]) <= OBSERVATION_BODY_BYTES
    ensures Grouped(h, projects + [p], groups[|groups| - 1 := groups[|groups| - 1] + [p]])
  {
    hide ReservedSize, Joined;
    JoinedGrown(groups, p);
    if projects == [] { EmptyGroups(h, groups); }
    var (n, last) := (|groups| - 1, groups[|groups| - 1]);
    var grown := groups[n := last + [p]];
    forall k | 1 <= k < |groups|
      ensures grown[k] != [] && ReservedSize(h, grown[k - 1] + [grown[k][0]]) > OBSERVATION_BODY_BYTES
    {
      assert grown[k - 1] == groups[k - 1] && groups[k] != [] && grown[k][0] == groups[k][0];
    }
  }

  lemma GroupStarted(h: Header, projects: seq<F.Observation>, groups: seq<seq<F.Observation>>, p: F.Observation)
    requires Grouped(h, projects, groups) && groups[|groups| - 1] != []
             && ReservedSize(h, [p]) <= OBSERVATION_BODY_BYTES
    requires ReservedSize(h, groups[|groups| - 1] + [p]) > OBSERVATION_BODY_BYTES
    ensures Grouped(h, projects + [p], groups + [[p]])
  {
    hide ReservedSize, Joined;
    JoinedOneMore(groups, [p]);
    var more := groups + [[p]];
    forall k | 1 <= k < |more|
      ensures more[k] != [] && ReservedSize(h, more[k - 1] + [more[k][0]]) > OBSERVATION_BODY_BYTES
    {
      if k < |groups| { assert groups[k] != []; }
    }
    if projects == [] { EmptyGroups(h, groups); }
  }

  lemma EmptyGroups(h: Header, groups: seq<seq<F.Observation>>)
    requires Grouped(h, [], groups)
    ensures |groups| == 1 && groups[0] == []
  {
    hide ReservedSize;
    assert groups == groups[..|groups| - 1] + [groups[|groups| - 1]];
    JoinedOneMore(groups[..|groups| - 1], groups[|groups| - 1]);
  }

  lemma LargerTogether(h: Header, entries: seq<F.Observation>, p: F.Observation)
    requires Printable(h)
    ensures ReservedSize(h, [p]) <= ReservedSize(h, entries + [p])
  {
    hide BodySize, Natural, EntriesSize, Around, Printable;
    PageSize(h, RESERVED_ID, [p], MAX_SAFE_INTEGER, 99, 100);
    PageSize(h, RESERVED_ID, entries + [p], MAX_SAFE_INTEGER, 99, 100);
    EntriesTogether(h, entries, p);
  }

  /** Greedy grouping: refused exactly when the inventory is invalid or one project alone is too large. */
  method ObservationPages(h: Header, projects: seq<F.Observation>) returns (groups: Option<seq<seq<F.Observation>>>)
    requires Printable(h)
    ensures groups.Some? <==> Uploadable(projects) && EachFits(h, projects)
    ensures groups.Some? ==> Grouped(h, projects, groups.value)
  {
    hide ReservedSize, Grouped;
    if |projects| > MANAGED_PROJECTS_PER_AGENT
       || (exists i, j :: 0 <= i < j < |projects| && projects[i].projectId == projects[j].projectId)
       || (exists i, j :: 0 <= i < j < |projects| && projects[i].localProjectId == projects[j].localProjectId)
    {
      return None;
    }
    var pages: seq<seq<F.Observation>> := [[]];
    NothingGrouped(h);
    var k := 0;
    while k < |projects|
      invariant 0 <= k <= |projects| && pages != [] && Grouped(h, projects[..k], pages) && EachFits(h, projects[..k])
    {
      var project := projects[k];
      var current := pages[|pages| - 1];
      LargerTogether(h, current, project);
      assert projects[..k + 1] == projects[..k] + [project];
      if ReservedSize(h, current + [project]) > OBSERVATION_BODY_BYTES {
        if current == [] {
          assert current + [project] == [projects[k]];
          return None;
        }
        if ReservedSize(h, [project]) <= OBSERVATION_BODY_BYTES { GroupStarted(h, projects[..k], pages, project); }
        pages := pages + [[project]];
        if ReservedSize(h, [project]) > OBSERVATION_BODY_BYTES { return None; }
      } else {
        GroupGrown(h, projects[..k], pages, project);
        pages := pages[|pages| - 1 := current + [project]];
      }
      k := k + 1;
    }
    assert projects[..k] == projects;
    groups := Some(pages);
  }

  lemma NothingGrouped(h: Header)
    ensures Grouped(h, [], [[]])
  {
    assert Joined([[]]) == Joined([]) + [];
  }

  /** Grouped pages are between one and a hundred, hold every project once, and fit as they are numbered. */
  lemma PagesFit(
    h: Header, projects: seq<F.Observation>, groups: seq<seq<F.Observation>>, requestId: Json.Text, sequence: nat,
    k: nat)
    requires Printable(h) && Drawn(requestId) && Grouped(h, projects, groups) && Uploadable(projects) && k < |groups|
    requires sequence + |groups| <= MAX_SAFE_INTEGER
    requires groups[k] == [] ==> ReservedSize(h, []) <= OBSERVATION_BODY_BYTES
    ensures 1 <= |groups| <= MAXIMUM_PAGES
    ensures BodySize(h, requestId, groups[k], sequence + k, k, |groups|) <= OBSERVATION_BODY_BYTES
  {
    hide ReservedSize, BodySize, Printable;
    ReservationCovers(h, requestId, groups[k], sequence + k, k, |groups|);
  }

  // ----- delivering the pages to the fleet -----

  function PageOf(revisionId: Uuid, groups: seq<seq<F.Observation>>, k: nat): Inventory
    requires k < |groups|
  {
    Inventory(revisionId, k, |groups|, groups[k])
  }

  /** The fleet after the first k pages, delivered in order as heartbeats of one session. */
  function Delivered(
    f: F.Fleet, id: Uuid, agentId: Uuid, credential: nat, sessionId: Uuid, revisionId: Uuid,
    groups: seq<seq<F.Observation>>, sequence: nat, times: seq<int>, k: nat): Option<F.Fleet>
    requires k <= |groups| == |times|
  {
    if k == 0 then Some(f)
    else
      var g := Delivered(f, id, agentId, credential, sessionId, revisionId, groups, sequence, times, k - 1);
      if g.None? then None
      else Observe(g.value, id, agentId, credential, sessionId, sequence + k - 1, PageOf(revisionId, groups, k - 1),
                   times[k - 1])
  }

  /** The session is live and its agent has identifiers for all of these projects. */
  ghost predicate Recognized(f: F.Fleet, id: Uuid, agentId: Uuid, sessionId: Uuid, projects: seq<F.Observation>) {
    && id in f.sessions && f.sessions[id].agentId == agentId && f.sessions[id].sessionId == sessionId
    && forall k :: 0 <= k < |projects| ==> Accepts(f, id, projects[k])
  }

  /** What the delivery needs of the fleet it starts from: a revision that is new to the
      session, sequence numbers beyond those seen, and heartbeats in time. */
  ghost predicate Deliverable(
    f: F.Fleet, id: Uuid, agentId: Uuid, credential: nat, sessionId: Uuid, revisionId: Uuid,
    projects: seq<F.Observation>, sequence: nat, times: seq<int>)
  {
    && Authentic(f, id, agentId, credential) && Recognized(f, id, agentId, sessionId, projects)
    && sequence > f.sessions[id].sequence
    && !(id in f.revisions && f.revisions[id].sessionId == sessionId && f.revisions[id].revisionId == revisionId)
    && times != [] && times[0] < f.sessions[id].expiresAt
    && forall k :: 0 < k < |times| ==> times[k] < times[k - 1] + SESSION_LIFETIME_MS
  }

  function Stored(groups: seq<seq<F.Observation>>, k: nat): seq<Page>
    requires k <= |groups|
  {
    if k == 0 then [] else Stored(groups, k - 1) + [Page(k - 1, ProjectIds(groups[k - 1]))]
  }

  lemma IdsOfSum(a: seq<F.Observation>, b: seq<F.Observation>)
    ensures ProjectIds(a + b) == ProjectIds(a) + ProjectIds(b)
  {
  }

  lemma IdsOneMore(rows: seq<Page>, page: Page)
    ensures IdsOf(rows + [page]) == IdsOf(rows) + page.ids
  {
    assert (rows + [page])[..|rows|] == rows;
  }

  lemma {:induction false} StoredIds(groups: seq<seq<F.Observation>>, k: nat)
    requires k <= |groups|
    ensures IdsOf(Stored(groups, k)) == ProjectIds(Joined(groups[..k])) && |Stored(groups, k)| == k
    ensures forall j :: 0 <= j < k ==> Stored(groups, k)[j].index == j
  {
    if k > 0 {
      hide IdsOf, Joined, ProjectIds;
      StoredIds(groups, k - 1);
      assert groups[..k] == groups[..k - 1] + [groups[k - 1]];
      JoinedOneMore(groups[..k - 1], groups[k - 1]);
      IdsOneMore(Stored(groups, k - 1), Page(k - 1, ProjectIds(groups[k - 1])));
      IdsOfSum(Joined(groups[..k - 1]), groups[k - 1]);
    } else {
      assert groups[..0] == [];
    }
  }

  lemma {:induction false} JoinedPrefix(groups: seq<seq<F.Observation>>, k: nat)
    requires k <= |groups|
    ensures Joined(groups[..k]) <= Joined(groups)
    decreases |groups| - k
  {
    if k < |groups| {
      assert groups[..k + 1] == groups[..k] + [groups[k]];
      JoinedOneMore(groups[..k], groups[k]);
      JoinedPrefix(groups, k + 1);
    } else {
      assert groups[..k] == groups;
    }
  }

  /** A group is a stretch of the projects. */
  lemma GroupIsStretch(groups: seq<seq<F.Observation>>, k: nat)
    requires k < |groups|
    ensures var n := |Joined(groups[..k])|;
            && n + |groups[k]| <= |Joined(groups)| && Joined(groups[..k]) == Joined(groups)[..n]
            && groups[k] == Joined(groups)[n..n + |groups[k]|]
  {
    hide Joined;
    JoinedPrefix(groups, k + 1);
    assert groups[..k + 1] == groups[..k] + [groups[k]];
    JoinedOneMore(groups[..k], groups[k]);
    var (before, group, all) := (Joined(groups[..k]), groups[k], Joined(groups));
    assert before + group == all[..|before| + |group|];
    assert group == (before + group)[|before|..];
  }

  lemma StretchIsValid(projects: seq<F.Observation>, n: nat, m: nat, v: Inventory)
    requires Uploadable(projects) && n + m <= |projects| && v.projects == projects[n..n + m]
             && v.pageIndex < v.pageCount <= MAXIMUM_PAGES
    ensures ValidInventory(v)
  {
    assert forall i :: 0 <= i < m ==> v.projects[i] == projects[n + i];
  }

  lemma StretchIsNew(projects: seq<F.Observation>, n: nat, m: nat, j: nat)
    requires Uploadable(projects) && n + m <= |projects| && j < m
    ensures projects[n..n + m][j].projectId !in ProjectIds(projects[..n])
  {
    forall i | 0 <= i < n ensures ProjectIds(projects[..n])[i] != projects[n + j].projectId {
      assert ProjectIds(projects[..n])[i] == projects[i].projectId;
    }
  }

  lemma PageIsFresh(rows: seq<Page>, v: Inventory, previous: seq<Uuid>)
    requires IdsOf(rows) == previous && |previous| + |v.projects| <= MANAGED_PROJECTS_PER_AGENT
    requires forall j :: 0 <= j < |rows| ==> rows[j].index != v.pageIndex
    requires forall j :: 0 <= j < |v.projects| ==> v.projects[j].projectId !in previous
    ensures Fresh(rows, v)
  {
    hide IdsOf;
  }

  lemma StretchIsFresh(projects: seq<F.Observation>, n: nat, m: nat, rows: seq<Page>, v: Inventory)
    requires Uploadable(projects) && n + m <= |projects| && v.projects == projects[n..n + m]
             && v.pageIndex < v.pageCount <= MAXIMUM_PAGES
    requires IdsOf(rows) == ProjectIds(projects[..n]) && forall j :: 0 <= j < |rows| ==> rows[j].index != v.pageIndex
    ensures ValidInventory(v) && Fresh(rows, v)
  {
    hide IdsOf, ValidInventory, ProjectIds, Uploadable, Fresh;
    StretchIsValid(projects, n, m, v);
    FewEnough(projects);
    OneIdEach(projects[..n]);
    forall j | 0 <= j < m ensures v.projects[j].projectId !in ProjectIds(projects[..n]) {
      StretchIsNew(projects, n, m, j);
    }
    PageIsFresh(rows, v, ProjectIds(projects[..n]));
  }

  lemma FewEnough(projects: seq<F.Observation>)
    requires Uploadable(projects)
    ensures |projects| <= MANAGED_PROJECTS_PER_AGENT
  {
  }

  lemma OneIdEach(projects: seq<F.Observation>)
    ensures |ProjectIds(projects)| == |projects|
  {
  }

  /** The next page is valid and fresh, whatever was delivered before. */
  lemma NextPageIsFresh(groups: seq<seq<F.Observation>>, projects: seq<F.Observation>, revisionId: Uuid, k: nat)
    requires k < |groups| <= MAXIMUM_PAGES && Joined(groups) == projects && Uploadable(projects)
    ensures ValidInventory(PageOf(revisionId, groups, k)) && Fresh(Stored(groups, k), PageOf(revisionId, groups, k))
    ensures forall j :: 0 <= j < |groups[k]| ==> groups[k][j] in projects
  {
    hide Joined, Stored, Uploadable, Fresh, ValidInventory, IdsOf;
    StoredIds(groups, k);
    GroupIsStretch(groups, k);
    StretchIsFresh(projects, |Joined(groups[..k])|, |groups[k]|, Stored(groups, k), PageOf(revisionId, groups, k));
  }

  // ----- one delivery step -----

  lemma AcceptsAfter(g: F.Fleet, o: F.Observation, now: int, id: Uuid, p: F.Observation)
    requires Accepts(g, id, o) && Accepts(g, id, p)
    ensures Accepts(Observed(g, o, now), id, p)
  {
  }

  lemma {:induction false} AcceptedAreObserved(
    g: F.Fleet, id: Uuid, observations: seq<F.Observation>, projects: seq<F.Observation>, now: int)
    requires forall j :: 0 <= j < |observations| ==> observations[j] in projects
    requires forall p :: p in projects ==> Accepts(g, id, p)
    ensures ObservedAll(g, id, observations, now).Some?
    ensures var h := ObservedAll(g, id, observations, now).value;
            && h == g.(projects := h.projects, ledger := h.ledger)
            && forall p :: p in projects ==> Accepts(h, id, p)
  {
    if observations != [] {
      hide Accepts, Observed;
      var (rest, last) := (observations[..|observations| - 1], observations[|observations| - 1]);
      assert last in projects;
      AcceptedAreObserved(g, id, rest, projects, now);
      var h := ObservedAll(g, id, rest, now).value;
      forall p | p in projects ensures Accepts(Observed(h, last, now), id, p) { AcceptsAfter(h, last, now, id, p); }
      OnlyProjects(h, last, now, id);
    }
  }

  lemma OnlyProjects(h: F.Fleet, o: F.Observation, now: int, id: Uuid)
    requires Accepts(h, id, o)
    ensures Observed(h, o, now) == h.(projects := Observed(h, o, now).projects, ledger := Observed(h, o, now).ledger)
  {
  }

  lemma AcceptsCommitted(g: F.Fleet, id: Uuid, all: set<Uuid>, now: int, p: F.Observation)
    requires id in g.revisions && Accepts(g, id, p)
    ensures Accepts(Committed(g, id, all, now), id, p)
  {
  }

  /** The revision and pages as page k is about to arrive. */
  ghost predicate Expects(
    g: F.Fleet, id: Uuid, sessionId: Uuid, revisionId: Uuid, groups: seq<seq<F.Observation>>, k: nat)
    requires k < |groups|
  {
    if k == 0 then
        !(id in g.revisions && g.revisions[id].sessionId == sessionId && g.revisions[id].revisionId == revisionId)
    else
      && id in g.revisions && g.revisions[id] == Revision(sessionId, revisionId, |groups|, false)
      && Rows(g, id) == Stored(groups, k)
  }

  lemma PageBegins(g: F.Fleet, id: Uuid, sessionId: Uuid, revisionId: Uuid, groups: seq<seq<F.Observation>>, k: nat)
    requires k < |groups| && Expects(g, id, sessionId, revisionId, groups, k)
    ensures var b := BeginPage(g, id, sessionId, PageOf(revisionId, groups, k));
            && b.Some? && b.value == g.(pages := b.value.pages, revisions := b.value.revisions)
            && Rows(b.value, id) == Stored(groups, k)
            && id in b.value.revisions && b.value.revisions[id] == Revision(sessionId, revisionId, |groups|, false)
  {
  }

  /** Page k is taken; the last one commits exactly the projects of all pages. */
  lemma PageIsTaken(
    g: F.Fleet, id: Uuid, sessionId: Uuid, revisionId: Uuid, groups: seq<seq<F.Observation>>,
    projects: seq<F.Observation>, k: nat, now: int)
    requires k < |groups| <= MAXIMUM_PAGES && Joined(groups) == projects && Uploadable(projects)
    requires Expects(g, id, sessionId, revisionId, groups, k) && forall p :: p in projects ==> Accepts(g, id, p)
    ensures ValidInventory(PageOf(revisionId, groups, k))
    ensures var h := ReceiveObservation(g, id, sessionId, PageOf(revisionId, groups, k), now);
            && h.Some? && h.value.sessions == g.sessions && h.value.environments == g.environments
               && h.value.credentials == g.credentials
            && (forall p :: p in projects ==> Accepts(h.value, id, p))
            && (k + 1 < |groups| ==> Expects(h.value, id, sessionId, revisionId, groups, k + 1))
            && (k + 1 == |groups| ==> FleetRuns.ManagedIn(h.value, id) == SetOf(ProjectIds(projects)))
  {
    hide ObservedAll, Accepts, BeginPage, Fresh, ValidInventory, Committed, IdsOf, Expects, Joined, Uploadable,
      Stored, FleetRuns.ManagedIn, SetOf;
    var v := PageOf(revisionId, groups, k);
    NextPageIsFresh(groups, projects, revisionId, k);
    PageBegins(g, id, sessionId, revisionId, groups, k);
    var b := BeginPage(g, id, sessionId, v).value;
    forall p | p in projects ensures Accepts(b, id, p) { AcceptsDespitePages(g, b, id, p); }
    AcceptedAreObserved(b, id, v.projects, projects, now);
    var o := ObservedAll(b, id, v.projects, now).value;
    var rows := Rows(b, id) + [Page(k, ProjectIds(groups[k]))];
    var stored := o.(pages := o.pages[id := rows]);
    StoredMore(groups, k);
    forall p | p in projects ensures Accepts(stored, id, p) { AcceptsDespitePages(o, stored, id, p); }
    if k + 1 == |groups| {
      var all := SetOf(IdsOf(rows));
      assert groups[..k + 1] == groups;
      forall p | p in projects ensures Accepts(Committed(stored, id, all, now), id, p) {
        AcceptsCommitted(stored, id, all, now, p);
      }
      CommittedRest(stored, id, all, now);
      CommitsAll(stored, id, projects, now);
    } else {
      ExpectsNext(stored, id, sessionId, revisionId, groups, k + 1);
    }
  }

  lemma AcceptsDespitePages(g: F.Fleet, b: F.Fleet, id: Uuid, p: F.Observation)
    requires b == g.(pages := b.pages, revisions := b.revisions) && Accepts(g, id, p)
    ensures Accepts(b, id, p)
  {
  }

  lemma StoredMore(groups: seq<seq<F.Observation>>, k: nat)
    requires k < |groups|
    ensures Stored(groups, k) + [Page(k, ProjectIds(groups[k]))] == Stored(groups, k + 1)
    ensures |Stored(groups, k + 1)| == k + 1 && IdsOf(Stored(groups, k + 1)) == ProjectIds(Joined(groups[..k + 1]))
  {
    StoredIds(groups, k + 1);
  }

  lemma ExpectsNext(g: F.Fleet, id: Uuid, sessionId: Uuid, revisionId: Uuid, groups: seq<seq<F.Observation>>, k: nat)
    requires 0 < k < |groups| && id in g.revisions
             && g.revisions[id] == Revision(sessionId, revisionId, |groups|, false)
    requires Rows(g, id) == Stored(groups, k)
    ensures Expects(g, id, sessionId, revisionId, groups, k)
  {
  }

  lemma CommittedRest(g: F.Fleet, id: Uuid, all: set<Uuid>, now: int)
    requires id in g.revisions
    ensures var h := Committed(g, id, all, now);
            h.sessions == g.sessions && h.environments == g.environments && h.credentials == g.credentials
  {
  }

  lemma CommitsAll(g: F.Fleet, id: Uuid, projects: seq<F.Observation>, now: int)
    requires id in g.revisions && forall p :: p in projects ==> Accepts(g, id, p)
    ensures FleetRuns.ManagedIn(Committed(g, id, SetOf(ProjectIds(projects)), now), id) == SetOf(ProjectIds(projects))
  {
    var all := SetOf(ProjectIds(projects));
    forall p | p in all ensures p in g.projects && g.projects[p].environmentId == id {
      var j :| 0 <= j < |projects| && projects[j].projectId == p;
      assert Accepts(g, id, projects[j]);
    }
    FleetObservation.CommittedManaged(g, id, all, now, id);
  }

  /** The session in the middle of a delivery: live, authentic and behind the next sequence number. */
  ghost predicate Midway(
    g: F.Fleet, id: Uuid, agentId: Uuid, credential: nat, sessionId: Uuid, sequence: nat, times: seq<int>, k: nat) {
    && Authentic(g, id, agentId, credential)
    && id in g.sessions && g.sessions[id].agentId == agentId && g.sessions[id].sessionId == sessionId
    && g.sessions[id].sequence < sequence + k
    && (k < |times| ==> times[k] < g.sessions[id].expiresAt)
  }

  lemma HeartbeatIsTaken(
    g: F.Fleet, id: Uuid, agentId: Uuid, credential: nat, sessionId: Uuid, sequence: nat, times: seq<int>, k: nat,
    v: Inventory)
    requires k < |times| && Midway(g, id, agentId, credential, sessionId, sequence, times, k) && ValidInventory(v)
    requires k + 1 < |times| ==> times[k + 1] < times[k] + SESSION_LIFETIME_MS
    requires var h := ReceiveObservation(g, id, sessionId, v, times[k]);
             h.Some? && h.value.sessions == g.sessions && h.value.environments == g.environments
               && h.value.credentials == g.credentials
    ensures var (h, taken) := (ReceiveObservation(g, id, sessionId, v, times[k]).value,
                               Observe(g, id, agentId, credential, sessionId, sequence + k, v, times[k]));
            && taken.Some? && Midway(taken.value, id, agentId, credential, sessionId, sequence, times, k + 1)
            && taken.value == h.(sessions := taken.value.sessions, environments := taken.value.environments)
            && id in taken.value.sessions && taken.value.sessions[id].agentId == agentId
  {
    hide ReceiveObservation, ValidInventory;
  }

  lemma AcceptsRenewed(h: F.Fleet, t: F.Fleet, id: Uuid, p: F.Observation)
    requires t == h.(sessions := t.sessions, environments := t.environments) && id in t.sessions
    requires Accepts(h, id, p) && t.sessions[id].agentId == h.sessions[id].agentId
    ensures Accepts(t, id, p)
  {
  }

  lemma {:induction false} DeliveryProceeds(
    f: F.Fleet, id: Uuid, agentId: Uuid, credential: nat, sessionId: Uuid, revisionId: Uuid,
    groups: seq<seq<F.Observation>>, projects: seq<F.Observation>, sequence: nat, times: seq<int>, k: nat)
    requires Deliverable(f, id, agentId, credential, sessionId, revisionId, projects, sequence, times)
    requires |groups| == |times| && k <= |groups| <= MAXIMUM_PAGES && Joined(groups) == projects && Uploadable(projects)
    ensures var g := Delivered(f, id, agentId, credential, sessionId, revisionId, groups, sequence, times, k);
            && g.Some? && Midway(g.value, id, agentId, credential, sessionId, sequence, times, k)
            && (forall p :: p in projects ==> Accepts(g.value, id, p))
            && (k < |groups| ==> Expects(g.value, id, sessionId, revisionId, groups, k))
            && (k == |groups| ==> FleetRuns.ManagedIn(g.value, id) == SetOf(ProjectIds(projects)))
  {
    hide ReceiveObservation, Observe, Accepts, Uploadable, Joined, Authentic, FleetRuns.ManagedIn, SetOf,
      ValidInventory, Midway, Expects;
    if k == 0 {
      DeliveryStarts(f, id, agentId, credential, sessionId, revisionId, groups, projects, sequence, times);
    } else {
      DeliveryProceeds(f, id, agentId, credential, sessionId, revisionId, groups, projects, sequence, times, k - 1);
      var g := Delivered(f, id, agentId, credential, sessionId, revisionId, groups, sequence, times, k - 1).value;
      var v := PageOf(revisionId, groups, k - 1);
      PageIsTaken(g, id, sessionId, revisionId, groups, projects, k - 1, times[k - 1]);
      HeartbeatIsTaken(g, id, agentId, credential, sessionId, sequence, times, k - 1, v);
      var h := ReceiveObservation(g, id, sessionId, v, times[k - 1]).value;
      var t := Observe(g, id, agentId, credential, sessionId, sequence + k - 1, v, times[k - 1]).value;
      SameAgent(g, id, agentId, credential, sessionId, sequence, times, k - 1);
      forall p | p in projects ensures Accepts(t, id, p) { AcceptsRenewed(h, t, id, p); }
      RenewedRest(h, t, id, sessionId, revisionId, groups, k);
    }
  }

  lemma SameAgent(
    g: F.Fleet, id: Uuid, agentId: Uuid, credential: nat, sessionId: Uuid, sequence: nat, times: seq<int>, k: nat)
    requires Midway(g, id, agentId, credential, sessionId, sequence, times, k)
    ensures id in g.sessions && g.sessions[id].agentId == agentId
  {
  }

  lemma RenewedRest(
    h: F.Fleet, t: F.Fleet, id: Uuid, sessionId: Uuid, revisionId: Uuid, groups: seq<seq<F.Observation>>, k: nat)
    requires t == h.(sessions := t.sessions, environments := t.environments)
    ensures k < |groups| ==>
            (Expects(t, id, sessionId, revisionId, groups, k) <==> Expects(h, id, sessionId, revisionId, groups, k))
    ensures FleetRuns.ManagedIn(t, id) == FleetRuns.ManagedIn(h, id)
  {
  }

  lemma DeliveryStarts(
    f: F.Fleet, id: Uuid, agentId: Uuid, credential: nat, sessionId: Uuid, revisionId: Uuid,
    groups: seq<seq<F.Observation>>, projects: seq<F.Observation>, sequence: nat, times: seq<int>)
    requires Deliverable(f, id, agentId, credential, sessionId, revisionId, projects, sequence, times)
             && |groups| == |times|
    ensures Midway(f, id, agentId, credential, sessionId, sequence, times, 0)
    ensures Expects(f, id, sessionId, revisionId, groups, 0)
    ensures forall p :: p in projects ==> Accepts(f, id, p)
  {
    forall p | p in projects ensures Accepts(f, id, p) {
      var j :| 0 <= j < |projects| && projects[j] == p;
      assert Accepts(f, id, projects[j]);
    }
  }

  /** The round trip: an inventory cut into pages and delivered in order is taken page by
      page, and makes exactly its own projects managed. */
  lemma PagesMakeInventoryManaged(
    h: Header, f: F.Fleet, id: Uuid, agentId: Uuid, credential: nat, sessionId: Uuid, revisionId: Uuid,
    groups: seq<seq<F.Observation>>, projects: seq<F.Observation>, sequence: nat, times: seq<int>)
    requires Uploadable(projects) && Grouped(h, projects, groups) && |times| == |groups|
    requires Deliverable(f, id, agentId, credential, sessionId, revisionId, projects, sequence, times)
    ensures var g := Delivered(f, id, agentId, credential, sessionId, revisionId, groups, sequence, times, |groups|);
            g.Some? && FleetRuns.ManagedIn(g.value, id) == SetOf(ProjectIds(projects))
  {
    hide ReservedSize, Deliverable, Delivered, FleetRuns.ManagedIn;
    DeliveryProceeds(f, id, agentId, credential, sessionId, revisionId, groups, projects, sequence, times, |groups|);
  }
}
