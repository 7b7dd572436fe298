/** Tracker scopes: when two projects watch the same source with the same filters. */
module Scope {
  import opened Prelude
  import opened Json
  import JsonCanonical

  // ----- trimming -----

  predicate Blank(c: CodeUnit) {
    || 0x09 <= c <= 0x0D || c == 0x20 || c == 0xA0 || c == 0x1680 || 0x2000 <= c <= 0x200A
    || c == 0x2028 || c == 0x2029 || c == 0x202F || c == 0x205F || c == 0x3000 || c == 0xFEFF
  }

  function Trim(s: Text): Text {
    if s == [] then []
    else if Blank(s[0]) then Trim(s[1..])
    else if Blank(s[|s| - 1]) then Trim(s[..|s| - 1])
    else s
  }

  // ----- reading a snapshot -----

  const TRACKER_SCOPE: Text := [0x74, 0x72, 0x61, 0x63, 0x6B, 0x65, 0x72, 0x53, 0x63, 0x6F, 0x70, 0x65]
  const ADAPTER: Text := [0x61, 0x64, 0x61, 0x70, 0x74, 0x65, 0x72]
  const BINDING_ID: Text := [0x62, 0x69, 0x6E, 0x64, 0x69, 0x6E, 0x67, 0x49, 0x64]
  const REPOSITORY: Text := [0x72, 0x65, 0x70, 0x6F, 0x73, 0x69, 0x74, 0x6F, 0x72, 0x79]
  const ACTIVE_STATES: Text := [0x61, 0x63, 0x74, 0x69, 0x76, 0x65, 0x53, 0x74, 0x61, 0x74, 0x65, 0x73]
  const INCLUDE_LABELS: Text := [0x69, 0x6E, 0x63, 0x6C, 0x75, 0x64, 0x65, 0x4C, 0x61, 0x62, 0x65, 0x6C, 0x73]
  const EXCLUDE_LABELS: Text := [0x65, 0x78, 0x63, 0x6C, 0x75, 0x64, 0x65, 0x4C, 0x61, 0x62, 0x65, 0x6C, 0x73]

  function Property(members: seq<Keyed<Option<Value>>>, name: Text): Option<Value> {
    if members == [] then None
    else if members[0].key == name then members[0].item
    else Property(members[1..], name)
  }

  /** A string with something in it besides blanks, trimmed. */
  function Word(v: Option<Value>): Option<Text> {
    if v.Some? && v.value.String? && Trim(v.value.s) != [] then Some(Trim(v.value.s)) else None
  }

  /** An array of such strings. */
  function Words(v: Option<Value>): Option<seq<Text>> {
    if v.Some? && v.value.Array? then AllWords(v.value.items) else None
  }

  function AllWords(items: seq<Value>): Option<seq<Text>> {
    if items == [] then Some([])
    else
      var (first, rest) := (Word(Some(items[0])), AllWords(items[1..]));
      if first.None? || rest.None? then None else Some([first.value] + rest.value)
  }

  /** What a scope means: who watches what, and three sets of labels. */
  datatype Meaning = Meaning(
    adapter: Text, bindingId: Text, repository: Text, activeStates: set<Text>, includeLabels: set<Text>,
    excludeLabels: set<Text>)

  /** The same, as read and still in lists. `lower` folds the case of adapter names. */
  datatype Reading = Reading(
    adapter: Text, bindingId: Text, repository: Text,
    activeStates: seq<Text>, includeLabels: seq<Text>, excludeLabels: seq<Text>)

  function Read(lower: Text -> Text, snapshot: Option<Value>): Option<Reading> {
    if snapshot.None? || !snapshot.value.Object? then None
    else
      var scope := Property(snapshot.value.members, TRACKER_SCOPE);
      if scope.None? || !scope.value.Object? then None
      else
        var m := scope.value.members;
        var (adapter, bindingId, repository) :=
          (Word(Property(m, ADAPTER)), Word(Property(m, BINDING_ID)), Word(Property(m, REPOSITORY)));
        var (activeStates, includeLabels, excludeLabels) :=
          (Words(Property(m, ACTIVE_STATES)), Words(Property(m, INCLUDE_LABELS)), Words(Property(m, EXCLUDE_LABELS)));
        if adapter.None? || bindingId.None? || repository.None? then None
        else if activeStates.None? || includeLabels.None? || excludeLabels.None? then None
        else
          Some(Reading(lower(adapter.value), bindingId.value, repository.value,
                       activeStates.value, includeLabels.value, excludeLabels.value))
  }

  function Elements(xs: seq<Text>): set<Text> { set x | x in xs }

  function MeaningOf(r: Reading): Meaning {
    Meaning(r.adapter, r.bindingId, r.repository, Elements(r.activeStates), Elements(r.includeLabels),
            Elements(r.excludeLabels))
  }

  // ----- keys -----

  function Dedup(xs: seq<Text>): seq<Keyed<()>> {
    if xs == [] then []
    else if xs[|xs| - 1] in xs[..|xs| - 1] then Dedup(xs[..|xs| - 1])
    else Dedup(xs[..|xs| - 1]) + [Keyed(xs[|xs| - 1], ())]
  }

  function Strings(xs: seq<Keyed<()>>): seq<Value> {
    seq(|xs|, i requires 0 <= i < |xs| => String(xs[i].key))
  }

  /** The distinct words in order. */
  function SortedSet(xs: seq<Text>): Value { Array(Strings(Sort(Dedup(xs)))) }

  datatype Keys = Keys(identity: Text, key: Text)

  function IdentityOf(r: Reading): Text { Print(Array([String(r.adapter), String(r.bindingId), String(r.repository)])) }

  function KeysOf(r: Reading): Keys {
    var identity := IdentityOf(r);
    Keys(identity,
         Print(Array([String(identity), SortedSet(r.activeStates), SortedSet(r.includeLabels),
                      SortedSet(r.excludeLabels)])))
  }

  function ScopeKey(lower: Text -> Text, snapshot: Option<Value>): Option<Keys> {
    var r := Read(lower, snapshot);
    if r.None? then None else Some(KeysOf(r.value))
  }

  // ----- keys are equal exactly when scopes mean the same -----

  lemma {:induction false} DedupKeeps(xs: seq<Text>)
    ensures forall k :: k in Dedup(xs) ==> k.key in xs
    ensures forall x :: x in xs ==> Keyed(x, ()) in Dedup(xs)
    ensures JsonCanonical.DistinctKeys(Dedup(xs))
  {
    if xs != [] {
      var (rest, last) := (xs[..|xs| - 1], xs[|xs| - 1]);
      DedupKeeps(rest);
      assert xs == rest + [last];
      if last !in rest {
        var d := Dedup(rest);
        forall i | 0 <= i < |d| ensures d[i].key != last { assert d[i] in d; }
      }
    }
  }

  lemma SortKeepsDistinct<A>(xs: seq<Keyed<A>>)
    requires JsonCanonical.DistinctKeys(xs)
    ensures JsonCanonical.DistinctKeys(Sort(xs)) && JsonCanonical.Ordered(Sort(xs))
    ensures forall k :: k in Sort(xs) <==> k in xs
  {
    hide Sort;
    JsonCanonical.SortOrders(xs);
    var s := Sort(xs);
    forall k ensures k in s <==> k in xs { SameMember(s, xs, k); }
    forall i, j | 0 <= i < j < |s| ensures s[i].key != s[j].key {
      SameMember(s, xs, s[i]);
      SameMember(s, xs, s[j]);
      if s[i].key == s[j].key {
        SameEntry(xs, s[i], s[j]);
        TwiceIn(s, i, j);
        OnceEach(xs, s[i]);
      }
    }
  }

  lemma SameMember<A>(xs: seq<Keyed<A>>, ys: seq<Keyed<A>>, k: Keyed<A>)
    requires multiset(xs) == multiset(ys)
    ensures k in xs <==> k in ys
  {
    assert k in multiset(xs) <==> k in multiset(ys);
  }

  lemma TwiceIn<A>(xs: seq<Keyed<A>>, i: nat, j: nat)
    requires i < j < |xs| && xs[i] == xs[j]
    ensures multiset(xs)[xs[i]] >= 2
  {
    assert xs == xs[..j] + [xs[j]] + xs[j + 1..];
    assert xs[i] in xs[..j];
  }

  lemma SameEntry<A>(xs: seq<Keyed<A>>, a: Keyed<A>, b: Keyed<A>)
    requires JsonCanonical.DistinctKeys(xs) && a in xs && b in xs && a.key == b.key
    ensures a == b
  {
    var i :| 0 <= i < |xs| && xs[i] == a;
    var j :| 0 <= j < |xs| && xs[j] == b;
  }

  lemma {:induction false} OnceEach<A>(xs: seq<Keyed<A>>, a: Keyed<A>)
    requires JsonCanonical.DistinctKeys(xs)
    ensures multiset(xs)[a] <= 1
  {
    if xs != [] {
      OnceEach(xs[1..], a);
      assert xs == [xs[0]] + xs[1..];
      forall k | 0 <= k < |xs| - 1 ensures xs[1..][k] != xs[0] { assert xs[0].key != xs[k + 1].key; }
      assert xs[0] !in xs[1..];
    }
  }

  /** Two word lists print alike exactly when they hold the same words. */
  lemma SortedSetIsSet(xs: seq<Text>, ys: seq<Text>)
    ensures Print(SortedSet(xs)) == Print(SortedSet(ys)) <==> Elements(xs) == Elements(ys)
    ensures SortedSet(xs) == SortedSet(ys) <==> Elements(xs) == Elements(ys)
    ensures WellFormed(SortedSet(xs))
  {
    var (s, t) := (Sort(Dedup(xs)), Sort(Dedup(ys)));
    DedupKeeps(xs);
    DedupKeeps(ys);
    SortKeepsDistinct(Dedup(xs));
    SortKeepsDistinct(Dedup(ys));
    if Elements(xs) == Elements(ys) {
      forall k ensures k in s <==> k in t {
        Unit(k.item);
        assert k.key in Elements(xs) <==> k.key in Elements(ys);
      }
      JsonCanonical.OrderedUnique(s, t);
    }
    if SortedSet(xs) == SortedSet(ys) {
      StringsInjective(s, t);
      forall x ensures x in xs <==> x in ys { assert Keyed(x, ()) in s <==> Keyed(x, ()) in t; }
    }
    JsonCanonical.CanonicalForm(SortedSet(xs), SortedSet(ys));
    SameStrings(s, t);
  }

  lemma StringsInjective(s: seq<Keyed<()>>, t: seq<Keyed<()>>)
    requires Strings(s) == Strings(t)
    ensures s == t
  {
    assert |s| == |Strings(s)| == |Strings(t)| == |t|;
    forall i | 0 <= i < |s| ensures s[i] == t[i] {
      assert Strings(s)[i] == String(s[i].key) && Strings(t)[i] == String(t[i].key);
      Unit(s[i].item);
      Unit(t[i].item);
    }
  }

  lemma Unit(u: ())
    ensures u == ()
  {
  }

  lemma SameStrings(s: seq<Keyed<()>>, t: seq<Keyed<()>>)
    ensures Same(Array(Strings(s)), Array(Strings(t))) <==> Strings(s) == Strings(t)
  {
    if Same(Array(Strings(s)), Array(Strings(t))) {
      forall i | 0 <= i < |Strings(s)| ensures Strings(s)[i] == Strings(t)[i] {
        assert Same(Strings(s)[i], Strings(t)[i]);
      }
    }
  }

  lemma SameArrays(a: seq<Value>, b: seq<Value>)
    requires |a| == |b| && forall i :: 0 <= i < |a| ==> WellFormed(a[i]) && WellFormed(b[i])
    ensures Print(Array(a)) == Print(Array(b)) <==> forall i :: 0 <= i < |a| ==> Print(a[i]) == Print(b[i])
  {
    JsonCanonical.CanonicalForm(Array(a), Array(b));
    forall i | 0 <= i < |a| ensures Same(a[i], b[i]) <==> Print(a[i]) == Print(b[i]) {
      JsonCanonical.CanonicalForm(a[i], b[i]);
    }
  }

  lemma SameText(a: Text, b: Text)
    ensures Print(String(a)) == Print(String(b)) <==> a == b
  {
    JsonCanonical.CanonicalForm(String(a), String(b));
  }

  /** Identities are equal exactly for the same adapter, binding and repository; keys
      exactly when the label sets are equal as well. */
  lemma KeysTellMeanings(r: Reading, s: Reading)
    ensures KeysOf(r).identity == KeysOf(s).identity
            <==> r.adapter == s.adapter && r.bindingId == s.bindingId && r.repository == s.repository
    ensures KeysOf(r).key == KeysOf(s).key <==> MeaningOf(r) == MeaningOf(s)
  {
    hide Print, WellFormed, SortedSet, Elements;
    Identities(r, s);
    Labels(r, s);
  }

  lemma Identities(r: Reading, s: Reading)
    ensures IdentityOf(r) == IdentityOf(s)
            <==> r.adapter == s.adapter && r.bindingId == s.bindingId && r.repository == s.repository
  {
    hide Print;
    var a := [String(r.adapter), String(r.bindingId), String(r.repository)];
    var b := [String(s.adapter), String(s.bindingId), String(s.repository)];
    SameArrays(a, b);
    SameText(r.adapter, s.adapter);
    SameText(r.bindingId, s.bindingId);
    SameText(r.repository, s.repository);
    assert Print(a[0]) == Print(b[0]) && Print(a[1]) == Print(b[1]) && Print(a[2]) == Print(b[2])
           <==> forall i :: 0 <= i < |a| ==> Print(a[i]) == Print(b[i]);
  }

  lemma Labels(r: Reading, s: Reading)
    ensures KeysOf(r).key == KeysOf(s).key
            <==> IdentityOf(r) == IdentityOf(s) && Elements(r.activeStates) == Elements(s.activeStates)
                 && Elements(r.includeLabels) == Elements(s.includeLabels)
                    && Elements(r.excludeLabels) == Elements(s.excludeLabels)
  {
    hide Print, WellFormed, SortedSet, Elements, IdentityOf;
    var a := [String(IdentityOf(r)), SortedSet(r.activeStates), SortedSet(r.includeLabels), SortedSet(r.excludeLabels)];
    var b := [String(IdentityOf(s)), SortedSet(s.activeStates), SortedSet(s.includeLabels), SortedSet(s.excludeLabels)];
    SortedSetIsSet(r.activeStates, s.activeStates);
    SortedSetIsSet(r.includeLabels, s.includeLabels);
    SortedSetIsSet(r.excludeLabels, s.excludeLabels);
    SortedSetIsSet(s.activeStates, r.activeStates);
    SortedSetIsSet(s.includeLabels, r.includeLabels);
    SortedSetIsSet(s.excludeLabels, r.excludeLabels);
    TextIsWellFormed(IdentityOf(r));
    TextIsWellFormed(IdentityOf(s));
    SameArrays(a, b);
    SameText(IdentityOf(r), IdentityOf(s));
    assert Print(a[0]) == Print(b[0]) && Print(a[1]) == Print(b[1]) && Print(a[2]) == Print(b[2])
           && Print(a[3]) == Print(b[3])
           <==> forall i :: 0 <= i < |a| ==> Print(a[i]) == Print(b[i]);
  }

  lemma TextIsWellFormed(t: Text)
    ensures WellFormed(String(t))
  {
  }
}
