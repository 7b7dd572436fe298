/**
 Warnings about overlapping tracker scopes: the projection counts projects by
 environment, and the counts are proved to decide two quantified questions.
 */
module ScopeWarnings {
  import opened Prelude
  import opened Wire
  import Json
  import S = Scope

  const MAXIMUM_PAGE_SIZE := 100

  /** A projected project. Its keys are missing when its snapshot is stale or shows no scope. */
  datatype Item = Item(projectId: Uuid, environmentId: Uuid, managed: bool, keys: Option<S.Keys>)

  datatype Warning = Identical(projectIds: seq<Uuid>) | Unverified(projectIds: seq<Uuid>)

  // ----- what the warnings mean -----

  /** Another managed project, watched from a different environment. */
  predicate Elsewhere(a: Item, b: Item) { b.managed && b.environmentId != a.environmentId }

  predicate SameScope(a: Item, b: Item) { a.keys.Some? && b.keys.Some? && a.keys.value.key == b.keys.value.key }

  /** It may overlap without being known to be identical. */
  predicate Doubtful(a: Item, b: Item) {
    b.keys.None? || (a.keys.Some? && b.keys.value.identity == a.keys.value.identity
                     && b.keys.value.key != a.keys.value.key)
  }

  ghost predicate HasIdentical(items: seq<Item>, a: Item) {
    exists j :: 0 <= j < |items| && Elsewhere(a, items[j]) && SameScope(a, items[j])
  }

  ghost predicate IsUnverified(items: seq<Item>, a: Item) {
    a.keys.None? || exists j :: 0 <= j < |items| && Elsewhere(a, items[j]) && Doubtful(a, items[j])
  }

  /** The identifiers of the projects elsewhere with the same scope, in order. */
  function Twins(items: seq<Item>, a: Item): seq<Uuid> {
    if items == [] then []
    else
      Twins(items[..|items| - 1], a)
      + if Elsewhere(a, items[|items| - 1]) && SameScope(a, items[|items| - 1]) then [items[|items| - 1].projectId]
        else []
  }

  function Take(ids: seq<Uuid>, n: nat): seq<Uuid> { if |ids| <= n then ids else ids[..n] }

  predicate Increasing(ids: seq<Uuid>) {
    forall i, j :: 0 <= i < j < |ids| ==> ids[i] < ids[j]
  }

  /** The project itself and its first twins, in order, no more than a page of them. */
  ghost predicate NamesTwins(items: seq<Item>, a: Item, ids: seq<Uuid>) {
    && Increasing(ids) && |ids| <= MAXIMUM_PAGE_SIZE
    && forall id :: id in ids <==> id == a.projectId || id in Take(Twins(items, a), MAXIMUM_PAGE_SIZE - 1)
  }

  ghost predicate Proper(items: seq<Item>, a: Item, warnings: seq<Warning>) {
    var identical := a.managed && HasIdentical(items, a);
    var unverified := a.managed && IsUnverified(items, a);
    && |warnings| == (if identical then 1 else 0) + (if unverified then 1 else 0)
    && (identical ==> warnings[0].Identical? && NamesTwins(items, a, warnings[0].projectIds))
    && (unverified ==> warnings[|warnings| - 1] == Unverified([a.projectId]))
  }

  // ----- the counts -----

  datatype Counts = Counts(total: nat, environments: map<Uuid, nat>)

  const NO_COUNTS := Counts(0, map[])

  function At(c: Counts, e: Uuid): nat { if e in c.environments then c.environments[e] else 0 }

  function Add(c: Counts, item: Item): Counts {
    Counts(c.total + 1, c.environments[item.environmentId := At(c, item.environmentId) + 1])
  }

  function Outside(c: Counts, e: Uuid): int { c.total - At(c, e) }

  /** What is being counted: projects without keys, with this identity, or with this key. */
  datatype Tag = Unread | ByIdentity(text: Json.Text) | ByKey(text: Json.Text)

  predicate Has(item: Item, tag: Tag) {
    item.managed && match tag
    case Unread => item.keys.None?
    case ByIdentity(text) => item.keys.Some? && item.keys.value.identity == text
    case ByKey(text) => item.keys.Some? && item.keys.value.key == text
  }

  function Tally(items: seq<Item>, tag: Tag): nat {
    if items == [] then 0 else Tally(items[..|items| - 1], tag) + if Has(items[|items| - 1], tag) then 1 else 0
  }

  function TallyIn(items: seq<Item>, tag: Tag, e: Uuid): nat {
    if items == [] then 0
    else
      TallyIn(items[..|items| - 1], tag, e)
      + if Has(items[|items| - 1], tag) && items[|items| - 1].environmentId == e then 1 else 0
  }

  function TallyOut(items: seq<Item>, tag: Tag, e: Uuid): nat {
    if items == [] then 0
    else
      TallyOut(items[..|items| - 1], tag, e)
      + if Has(items[|items| - 1], tag) && items[|items| - 1].environmentId != e then 1 else 0
  }

  /** The counts are those of the items with this tag. */
  ghost predicate Counted(c: Counts, items: seq<Item>, tag: Tag) {
    c.total == Tally(items, tag) && forall e :: At(c, e) == TallyIn(items, tag, e)
  }

  lemma TallyOneMore(items: seq<Item>, tag: Tag, item: Item, e: Uuid)
    ensures Tally(items + [item], tag) == Tally(items, tag) + if Has(item, tag) then 1 else 0
    ensures TallyIn(items + [item], tag, e)
            == TallyIn(items, tag, e) + if Has(item, tag) && item.environmentId == e then 1 else 0
  {
    hide Has;
    assert (items + [item])[..|items|] == items;
  }

  lemma CountedOneMore(c: Counts, items: seq<Item>, tag: Tag, item: Item)
    requires Counted(c, items, tag)
    ensures Counted(if Has(item, tag) then Add(c, item) else c, items + [item], tag)
  {
    hide Has, Tally, TallyIn;
    var d := if Has(item, tag) then Add(c, item) else c;
    TallyOneMore(items, tag, item, item.environmentId);
    forall e ensures At(d, e) == TallyIn(items + [item], tag, e) { TallyOneMore(items, tag, item, e); }
  }

  lemma {:induction false} TallySplits(items: seq<Item>, tag: Tag, e: Uuid)
    ensures Tally(items, tag) == TallyIn(items, tag, e) + TallyOut(items, tag, e)
  {
    if items != [] { TallySplits(items[..|items| - 1], tag, e); }
  }

  lemma OutsideCounts(c: Counts, items: seq<Item>, tag: Tag, e: Uuid)
    requires Counted(c, items, tag)
    ensures Outside(c, e) == TallyOut(items, tag, e)
  {
    TallySplits(items, tag, e);
  }

  lemma {:induction false} SomeOutside(items: seq<Item>, tag: Tag, e: Uuid)
    ensures TallyOut(items, tag, e) > 0
            <==> exists j :: 0 <= j < |items| && Has(items[j], tag) && items[j].environmentId != e
  {
    if items != [] {
      var n := |items| - 1;
      SomeOutside(items[..n], tag, e);
      if TallyOut(items[..n], tag, e) > 0 {
        var j :| 0 <= j < n && Has(items[..n][j], tag) && items[..n][j].environmentId != e;
        assert Has(items[j], tag) && items[j].environmentId != e;
      }
      if j :| 0 <= j < n && Has(items[j], tag) && items[j].environmentId != e {
        assert Has(items[..n][j], tag) && items[..n][j].environmentId != e;
      }
    }
  }

  /** Keys refine identities. */
  ghost predicate Coherent(items: seq<Item>) {
    forall i, j | 0 <= i < |items| && 0 <= j < |items| && SameScope(items[i], items[j]) ::
      items[i].keys.value.identity == items[j].keys.value.identity
  }

  /** More projects share the identity than the key exactly when one has the identity and another key. */
  lemma {:induction false} MoreByIdentity(items: seq<Item>, keys: S.Keys, e: Uuid)
    requires forall j :: 0 <= j < |items| && items[j].keys.Some? && items[j].keys.value.key == keys.key ==>
               items[j].keys.value.identity == keys.identity
    ensures TallyOut(items, ByIdentity(keys.identity), e) >= TallyOut(items, ByKey(keys.key), e)
    ensures TallyOut(items, ByIdentity(keys.identity), e) > TallyOut(items, ByKey(keys.key), e) <==>
            exists j :: 0 <= j < |items| && Has(items[j], ByIdentity(keys.identity))
                        && items[j].keys.value.key != keys.key && items[j].environmentId != e
  {
    if items != [] {
      var n := |items| - 1;
      MoreByIdentity(items[..n], keys, e);
      if j :| 0 <= j < n && Has(items[..n][j], ByIdentity(keys.identity)) && items[..n][j].keys.value.key != keys.key
              && items[..n][j].environmentId != e
      {
        assert Has(items[j], ByIdentity(keys.identity)) && items[j].keys.value.key != keys.key
               && items[j].environmentId != e;
      }
      if j :| 0 <= j < n && Has(items[j], ByIdentity(keys.identity)) && items[j].keys.value.key != keys.key
              && items[j].environmentId != e
      {
        assert Has(items[..n][j], ByIdentity(keys.identity));
      }
    }
  }

  // ----- tags and questions -----

  lemma DoubtIsCounted(items: seq<Item>, a: Item)
    requires a.keys.Some? && forall j :: 0 <= j < |items| && SameScope(a, items[j]) ==>
               items[j].keys.value.identity == a.keys.value.identity
    ensures var (keys, e) := (a.keys.value, a.environmentId);
            IsUnverified(items, a)
            <==> (|| TallyOut(items, Unread, e) > 0
                  || TallyOut(items, ByIdentity(keys.identity), e) > TallyOut(items, ByKey(keys.key), e))
  {
    var (keys, e) := (a.keys.value, a.environmentId);
    SomeOutside(items, Unread, e);
    MoreByIdentity(items, keys, e);
    if TallyOut(items, Unread, e) > 0 {
      var j :| 0 <= j < |items| && Has(items[j], Unread) && items[j].environmentId != e;
      assert Elsewhere(a, items[j]) && Doubtful(a, items[j]);
    }
    if TallyOut(items, ByIdentity(keys.identity), e) > TallyOut(items, ByKey(keys.key), e) {
      var j :| 0 <= j < |items| && Has(items[j], ByIdentity(keys.identity)) && items[j].keys.value.key != keys.key
               && items[j].environmentId != e;
      assert Elsewhere(a, items[j]) && Doubtful(a, items[j]);
    }
    if j :| 0 <= j < |items| && Elsewhere(a, items[j]) && Doubtful(a, items[j]) {
      if items[j].keys.None? {
        assert Has(items[j], Unread);
      } else {
        assert Has(items[j], ByIdentity(keys.identity)) && items[j].keys.value.key != keys.key;
      }
    }
  }

  lemma IdenticalIsCounted(items: seq<Item>, a: Item)
    requires a.keys.Some?
    ensures HasIdentical(items, a) <==> TallyOut(items, ByKey(a.keys.value.key), a.environmentId) > 0
  {
    SomeOutside(items, ByKey(a.keys.value.key), a.environmentId);
    if j :| 0 <= j < |items| && Has(items[j], ByKey(a.keys.value.key)) && items[j].environmentId != a.environmentId {
      assert Elsewhere(a, items[j]) && SameScope(a, items[j]);
    }
    if j :| 0 <= j < |items| && Elsewhere(a, items[j]) && SameScope(a, items[j]) {
      assert Has(items[j], ByKey(a.keys.value.key));
    }
  }

  // ----- naming twins -----

  /** The members of a group, as the first pass collects them. */
  function Members(items: seq<Item>, key: Json.Text): seq<Item> {
    if items == [] then []
    else Members(items[..|items| - 1], key) + if Has(items[|items| - 1], ByKey(key)) then [items[|items| - 1]] else []
  }

  function IdsElsewhere(members: seq<Item>, e: Uuid): seq<Uuid> {
    if members == [] then []
    else
      var (rest, last) := (members[..|members| - 1], members[|members| - 1]);
      IdsElsewhere(rest, e) + if last.environmentId != e then [last.projectId] else []
  }

  lemma {:induction false} TwinsAreMembers(items: seq<Item>, a: Item)
    requires a.keys.Some?
    ensures Twins(items, a) == IdsElsewhere(Members(items, a.keys.value.key), a.environmentId)
  {
    if items != [] {
      var (rest, last) := (items[..|items| - 1], items[|items| - 1]);
      TwinsAreMembers(rest, a);
      var members := Members(rest, a.keys.value.key);
      if Has(last, ByKey(a.keys.value.key)) {
        var more := members + [last];
        assert Members(items, a.keys.value.key) == more;
        assert more[..|more| - 1] == members && more[|more| - 1] == last;
      } else {
        assert Members(items, a.keys.value.key) == members;
      }
    }
  }

  predicate IncreasingItems(items: seq<Item>) {
    forall i, j :: 0 <= i < j < |items| ==> items[i].projectId < items[j].projectId
  }

  lemma {:induction false} TwinsIncrease(items: seq<Item>, a: Item)
    requires IncreasingItems(items)
    ensures Increasing(Twins(items, a))
    ensures forall id :: id in Twins(items, a) ==>
              exists j :: 0 <= j < |items| && items[j].projectId == id && items[j].environmentId != a.environmentId
  {
    if items != [] {
      var n := |items| - 1;
      TwinsIncrease(items[..n], a);
      forall id | id in Twins(items[..n], a) ensures id < items[n].projectId {
        var j :| 0 <= j < n && items[..n][j].projectId == id;
        assert items[j].projectId < items[n].projectId;
      }
      var before := Twins(items[..n], a);
      forall i | 0 <= i < |before| ensures before[i] < items[n].projectId { assert before[i] in before; }
      forall id | id in Twins(items, a)
        ensures exists j :: 0 <= j < |items| && items[j].projectId == id && items[j].environmentId != a.environmentId
      {
        if id in Twins(items[..n], a) {
          var j :| 0 <= j < n && items[..n][j].projectId == id && items[..n][j].environmentId != a.environmentId;
          assert items[j].projectId == id && items[j].environmentId != a.environmentId;
        } else {
          assert items[n].projectId == id;
        }
      }
    }
  }

  /** The first twins are collected until the page is nearly full. */
  method Related(members: seq<Item>, e: Uuid) returns (related: seq<Uuid>)
    ensures related == Take(IdsElsewhere(members, e), MAXIMUM_PAGE_SIZE - 1)
  {
    related := [];
    var k := 0;
    while k < |members|
      invariant 0 <= k <= |members|
      invariant related == IdsElsewhere(members[..k], e) && |related| < MAXIMUM_PAGE_SIZE - 1
    {
      assert members[..k + 1][..k] == members[..k];
      if members[k].environmentId != e { related := related + [members[k].projectId]; }
      k := k + 1;
      if |related| == MAXIMUM_PAGE_SIZE - 1 {
        MoreElsewhere(members, k, e);
        return;
      }
    }
    assert members[..k] == members;
  }

  lemma {:induction false} MoreElsewhere(members: seq<Item>, k: nat, e: Uuid)
    requires k <= |members|
    ensures IdsElsewhere(members[..k], e) <= IdsElsewhere(members, e)
  {
    if k < |members| {
      var n := |members| - 1;
      assert members[..n][..k] == members[..k];
      MoreElsewhere(members[..n], k, e);
    } else {
      assert members[..k] == members;
    }
  }

  function InsertId(id: Uuid, ids: seq<Uuid>): seq<Uuid> {
    if ids == [] || id <= ids[0] then [id] + ids else [ids[0]] + InsertId(id, ids[1..])
  }

  lemma FirstIsLeast(ids: seq<Uuid>, id: Uuid)
    requires ids != [] && Increasing(ids) && id in ids[1..]
    ensures ids[0] < id
  {
    var k :| 0 <= k < |ids| - 1 && ids[1..][k] == id;
    assert ids[0] < ids[k + 1];
  }

  lemma {:induction false} InsertIdSorts(id: Uuid, ids: seq<Uuid>)
    requires Increasing(ids) && id !in ids
    ensures Increasing(InsertId(id, ids)) && |InsertId(id, ids)| == |ids| + 1
    ensures forall x :: x in InsertId(id, ids) <==> x == id || x in ids
  {
    if ids != [] && ids[0] < id {
      var rest := ids[1..];
      assert ids == [ids[0]] + rest;
      InsertIdSorts(id, rest);
      var inserted := InsertId(id, rest);
      forall i | 0 <= i < |inserted| ensures ids[0] < inserted[i] {
        assert inserted[i] in inserted;
        if inserted[i] != id { FirstIsLeast(ids, inserted[i]); }
      }
    }
  }

  lemma TakeIncreases(ids: seq<Uuid>, n: nat)
    requires Increasing(ids)
    ensures Increasing(Take(ids, n)) && |Take(ids, n)| <= n && forall id :: id in Take(ids, n) ==> id in ids
  {
  }

  lemma NotItsOwnTwin(items: seq<Item>, k: nat)
    requires IncreasingItems(items) && k < |items|
    ensures items[k].projectId !in Twins(items, items[k])
  {
    TwinsIncrease(items, items[k]);
    forall j | 0 <= j < |items| && items[j].projectId == items[k].projectId ensures j == k {
    }
  }

  // ----- the two passes -----

  datatype Group = Group(counts: Counts, projects: seq<Item>)

  /** What the first pass knows after some of the items. */
  ghost predicate Surveyed(
    items: seq<Item>, unread: Counts, identities: map<Json.Text, Counts>, groups: map<Json.Text, Group>)
  {
    && Counted(unread, items, Unread)
    && (forall t :: Counted(CountsOf(identities, t), items, ByIdentity(t)))
    && (forall t ::
        Counted(GroupOf(groups, t).counts, items, ByKey(t)) && GroupOf(groups, t).projects == Members(items, t))
  }

  function CountsOf(identities: map<Json.Text, Counts>, t: Json.Text): Counts {
    if t in identities then identities[t] else NO_COUNTS
  }

  function GroupOf(groups: map<Json.Text, Group>, t: Json.Text): Group {
    if t in groups then groups[t] else Group(NO_COUNTS, [])
  }

  /** One more item moves exactly the counts it belongs to. */
  ghost predicate Advanced(
    item: Item, unread: Counts, identities: map<Json.Text, Counts>, groups: map<Json.Text, Group>,
    unread': Counts, identities': map<Json.Text, Counts>, groups': map<Json.Text, Group>)
  {
    && unread' == (if Has(item, Unread) then Add(unread, item) else unread)
    && (forall t ::
          CountsOf(identities', t)
          == if Has(item, ByIdentity(t)) then Add(CountsOf(identities, t), item) else CountsOf(identities, t))
    && (forall t ::
          GroupOf(groups', t)
          == var g := GroupOf(groups, t);
             if Has(item, ByKey(t)) then Group(Add(g.counts, item), g.projects + [item]) else g)
  }

  lemma SurveyedOneMore(
    items: seq<Item>, item: Item,
    unread: Counts, identities: map<Json.Text, Counts>, groups: map<Json.Text, Group>,
    unread': Counts, identities': map<Json.Text, Counts>, groups': map<Json.Text, Group>)
    requires Surveyed(items, unread, identities, groups)
    requires Advanced(item, unread, identities, groups, unread', identities', groups')
    ensures Surveyed(items + [item], unread', identities', groups')
  {
    hide Counted, Has, Add, CountsOf, GroupOf;
    CountedOneMore(unread, items, Unread, item);
    forall t ensures Counted(CountsOf(identities', t), items + [item], ByIdentity(t)) {
      CountedOneMore(CountsOf(identities, t), items, ByIdentity(t), item);
    }
    forall t ensures Counted(GroupOf(groups', t).counts, items + [item], ByKey(t)) {
      CountedOneMore(GroupOf(groups, t).counts, items, ByKey(t), item);
    }
    assert (items + [item])[..|items|] == items;
  }

  method SurveyOne(item: Item, unread: Counts, identities: map<Json.Text, Counts>, groups: map<Json.Text, Group>)
    returns (unread': Counts, identities': map<Json.Text, Counts>, groups': map<Json.Text, Group>)
    ensures Advanced(item, unread, identities, groups, unread', identities', groups')
  {
    hide Add;
    unread', identities', groups' := unread, identities, groups;
    if !item.managed { return; }
    if item.keys.None? {
      unread' := Add(unread, item);
      return;
    }
    var keys := item.keys.value;
    var identity := if keys.identity in identities then identities[keys.identity] else NO_COUNTS;
    identities' := identities[keys.identity := Add(identity, item)];
    var group := if keys.key in groups then groups[keys.key] else Group(NO_COUNTS, []);
    groups' := groups[keys.key := Group(Add(group.counts, item), group.projects + [item])];
  }

  method Survey(items: seq<Item>)
    returns (unread: Counts, identities: map<Json.Text, Counts>, groups: map<Json.Text, Group>)
    ensures Surveyed(items, unread, identities, groups)
  {
    hide Surveyed, Advanced;
    unread, identities, groups := NO_COUNTS, map[], map[];
    var k := 0;
    NothingSurveyed();
    assert items[..0] == [];
    while k < |items|
      invariant 0 <= k <= |items| && Surveyed(items[..k], unread, identities, groups)
    {
      ghost var (unread0, identities0, groups0) := (unread, identities, groups);
      unread, identities, groups := SurveyOne(items[k], unread, identities, groups);
      SurveyedOneMore(items[..k], items[k], unread0, identities0, groups0, unread, identities, groups);
      assert items[..k + 1] == items[..k] + [items[k]];
      k := k + 1;
    }
    assert items[..k] == items;
  }

  lemma NothingSurveyed()
    ensures Surveyed([], NO_COUNTS, map[], map[])
  {
  }

  /** Rows arrive ordered by project identifier. */
  method Warn(items: seq<Item>) returns (warnings: seq<seq<Warning>>)
    requires IncreasingItems(items) && Coherent(items)
    ensures |warnings| == |items| && forall k :: 0 <= k < |items| ==> Proper(items, items[k], warnings[k])
  {
    hide Surveyed, Proper, Coherent, IncreasingItems, Twins;
    var unread, identities, groups := Survey(items);
    warnings := [];
    var k := 0;
    while k < |items|
      invariant 0 <= k <= |items| && |warnings| == k
      invariant forall j :: 0 <= j < k ==> Proper(items, items[j], warnings[j])
    {
      var warned := WarnOne(items, k, unread, identities, groups);
      warnings := warnings + [warned];
      k := k + 1;
    }
  }

  method WarnOne(
    items: seq<Item>, k: nat, unread: Counts, identities: map<Json.Text, Counts>, groups: map<Json.Text, Group>)
    returns (warned: seq<Warning>)
    requires IncreasingItems(items) && Coherent(items) && k < |items| && Surveyed(items, unread, identities, groups)
    ensures Proper(items, items[k], warned)
  {
    hide Counted, Twins, Members, IncreasingItems, Take, TallyOut, HasIdentical, IsUnverified, Outside;
    var item := items[k];
    warned := [];
    if !item.managed { return; }
    if item.keys.None? {
      NothingIdentical(items, item);
      return [Unverified([item.projectId])];
    }
    var (keys, e) := (item.keys.value, item.environmentId);
    var group := if keys.key in groups then groups[keys.key] else Group(NO_COUNTS, []);
    var identity := if keys.identity in identities then identities[keys.identity] else NO_COUNTS;
    OutsideCounts(group.counts, items, ByKey(keys.key), e);
    OutsideCounts(identity, items, ByIdentity(keys.identity), e);
    OutsideCounts(unread, items, Unread, e);
    IdenticalIsCounted(items, item);
    DoubtIsCounted(items, item);
    if Outside(group.counts, e) > 0 {
      var related := Related(group.projects, e);
      TwinsAreMembers(items, item);
      TwinsIncrease(items, item);
      NotItsOwnTwin(items, k);
      TakeIncreases(Twins(items, item), MAXIMUM_PAGE_SIZE - 1);
      InsertIdSorts(item.projectId, related);
      warned := [Identical(InsertId(item.projectId, related))];
    }
    if Outside(unread, e) > 0 || Outside(identity, e) > Outside(group.counts, e) {
      warned := warned + [Unverified([item.projectId])];
    }
  }

  lemma NothingIdentical(items: seq<Item>, a: Item)
    requires a.keys.None?
    ensures !HasIdentical(items, a) && IsUnverified(items, a)
  {
  }

  /** Keys of real snapshots always refine identities. */
  lemma ReadKeysCohere(items: seq<Item>, lower: Json.Text -> Json.Text, snapshots: seq<Option<Json.Value>>)
    requires |snapshots| == |items|
    requires forall k :: 0 <= k < |items| && items[k].keys.Some? ==> items[k].keys == S.ScopeKey(lower, snapshots[k])
    ensures Coherent(items)
  {
    forall i, j | 0 <= i < |items| && 0 <= j < |items| && SameScope(items[i], items[j])
      ensures items[i].keys.value.identity == items[j].keys.value.identity
    {
      S.KeysTellMeanings(S.Read(lower, snapshots[i]).value, S.Read(lower, snapshots[j]).value);
    }
  }
}
