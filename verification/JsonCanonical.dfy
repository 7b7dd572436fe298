/** The canonical printer prints two values alike exactly when they are the same. */
module JsonCanonical {
  import opened Prelude
  import opened Json
  import opened JsonRoundTrip

  type Members = seq<Keyed<Option<Value>>>

  // ----- key order -----

  lemma {:induction false} LessIsStrict(a: Text, b: Text)
    ensures !(Less(a, b) && Less(b, a))
    ensures a != b ==> Less(a, b) || Less(b, a)
  {
    if a != [] && b != [] && a[0] == b[0] {
      LessIsStrict(a[1..], b[1..]);
      HeadTail(a);
      HeadTail(b);
    }
  }

  lemma {:induction false} LessTransitive(a: Text, b: Text, c: Text)
    requires Less(a, b) && Less(b, c)
    ensures Less(a, c)
  {
    if a != [] && a[0] == b[0] && b[0] == c[0] {
      LessTransitive(a[1..], b[1..], c[1..]);
    }
  }

  /** No key is below the one before it. */
  ghost predicate Ordered<A>(xs: seq<Keyed<A>>) {
    forall i, j :: 0 <= i < j < |xs| ==> !Less(xs[j].key, xs[i].key)
  }

  ghost predicate DistinctKeys<A>(xs: seq<Keyed<A>>) {
    forall i, j :: 0 <= i < j < |xs| ==> xs[i].key != xs[j].key
  }

  // ----- sorting -----

  lemma NotBelow(low: Text, mid: Text, high: Text)
    requires !Less(mid, low) && !Less(high, mid)
    ensures !Less(high, low)
  {
    if Less(high, low) {
      LessIsStrict(low, mid);
      LessIsStrict(mid, high);
      if low != mid { LessTransitive(high, low, mid); }
    }
  }

  lemma {:induction false} InsertOrders<A>(x: Keyed<A>, xs: seq<Keyed<A>>)
    requires Ordered(xs)
    ensures Ordered(Insert(x, xs))
    ensures multiset(Insert(x, xs)) == multiset{x} + multiset(xs)
  {
    if xs == [] {
    } else if !Less(xs[0].key, x.key) {
      forall j | 0 <= j < |xs| ensures !Less(xs[j].key, x.key) {
        if j > 0 { NotBelow(x.key, xs[0].key, xs[j].key); }
      }
    } else {
      InsertOrders(x, xs[1..]);
      InsertBelow(x, xs);
      assert xs == [xs[0]] + xs[1..];
    }
  }

  lemma InsertBelow<A>(x: Keyed<A>, xs: seq<Keyed<A>>)
    requires xs != [] && Ordered(xs) && Less(xs[0].key, x.key)
    requires multiset(Insert(x, xs[1..])) == multiset{x} + multiset(xs[1..])
    ensures forall j :: 0 <= j < |Insert(x, xs[1..])| ==> !Less(Insert(x, xs[1..])[j].key, xs[0].key)
  {
    var tail := Insert(x, xs[1..]);
    forall j | 0 <= j < |tail| ensures !Less(tail[j].key, xs[0].key) {
      assert tail[j] in multiset(tail);
      if tail[j] == x {
        LessIsStrict(xs[0].key, x.key);
      } else {
        assert tail[j] in xs[1..];
      }
    }
  }

  lemma {:induction false} SortOrders<A>(xs: seq<Keyed<A>>)
    ensures Ordered(Sort(xs)) && multiset(Sort(xs)) == multiset(xs)
  {
    if xs != [] {
      SortOrders(xs[1..]);
      InsertOrders(xs[0], Sort(xs[1..]));
      assert xs == [xs[0]] + xs[1..];
    }
  }

  lemma {:induction false} SortOfOrdered<A>(xs: seq<Keyed<A>>)
    requires Ordered(xs)
    ensures Sort(xs) == xs
  {
    if xs != [] {
      SortOfOrdered(xs[1..]);
      assert xs == [xs[0]] + xs[1..];
      if |xs| > 1 { assert xs[1..][0] == xs[1]; }
    }
  }

  /** Lists with the same elements and no two equal keys sort to the same list. */
  lemma {:induction false} OrderedUnique<A>(xs: seq<Keyed<A>>, ys: seq<Keyed<A>>)
    requires Ordered(xs) && Ordered(ys) && DistinctKeys(xs) && DistinctKeys(ys)
    requires forall m :: m in xs <==> m in ys
    ensures xs == ys
  {
    if xs == [] {
      SomeElement(ys);
    } else {
      assert xs[0] in ys && (ys != [] ==> ys[0] in xs);
      FirstOf(xs, ys);
      HeadTail(xs);
      HeadTail(ys);
      forall m ensures m in xs[1..] <==> m in ys[1..] {
        if m in xs[1..] {
          assert m in ys;
          assert m != ys[0];
        }
        if m in ys[1..] {
          assert m in xs;
          assert m != xs[0];
        }
      }
      OrderedUnique(xs[1..], ys[1..]);
    }
  }

  lemma SomeElement<A>(xs: seq<A>)
    ensures xs != [] ==> exists m :: m in xs
  {
    if xs != [] { assert xs[0] in xs; }
  }

  lemma FirstOf<A>(xs: seq<Keyed<A>>, ys: seq<Keyed<A>>)
    requires xs != [] && ys != [] && Ordered(xs) && Ordered(ys) && DistinctKeys(xs) && DistinctKeys(ys)
    requires xs[0] in ys && ys[0] in xs
    ensures xs[0] == ys[0]
  {
    var k :| 0 <= k < |ys| && ys[k] == xs[0];
    var l :| 0 <= l < |xs| && xs[l] == ys[0];
    LessIsStrict(xs[0].key, ys[0].key);
  }

  // ----- the normal form -----

  lemma {:induction false} NormalMembersFrom(members: Members)
    ensures AllDefined(NormalMembers(members))
    ensures forall m :: m in NormalMembers(members) ==>
              exists i :: DefinedAt(members, i, m.key) && m.item == Some(Normal(members[i].item.value))
    ensures forall i :: 0 <= i < |members| && members[i].item.Some? ==>
              Keyed(members[i].key, Some(Normal(members[i].item.value))) in NormalMembers(members)
    decreases members
  {
    if members != [] {
      NormalMembersFrom(members[1..]);
      var tail := NormalMembers(members[1..]);
      forall m | m in NormalMembers(members)
        ensures exists i :: DefinedAt(members, i, m.key) && m.item == Some(Normal(members[i].item.value))
      {
        if m in tail {
          var i :| DefinedAt(members[1..], i, m.key) && m.item == Some(Normal(members[1..][i].item.value));
          assert DefinedAt(members, i + 1, m.key);
        } else {
          assert DefinedAt(members, 0, m.key);
        }
      }
      forall i | 0 <= i < |members| && members[i].item.Some?
        ensures Keyed(members[i].key, Some(Normal(members[i].item.value))) in NormalMembers(members)
      {
        if i > 0 { assert members[1..][i - 1] == members[i]; }
      }
    }
  }

  lemma {:induction false} NormalMembersDistinct(members: Members)
    requires DistinctKeys(members)
    ensures DistinctKeys(NormalMembers(members))
    decreases members
  {
    if members != [] {
      NormalMembersDistinct(members[1..]);
      NormalMembersFrom(members[1..]);
      var tail := NormalMembers(members[1..]);
      forall j | 0 <= j < |tail| ensures tail[j].key != members[0].key {
        assert tail[j] in tail;
        var i :| DefinedAt(members[1..], i, tail[j].key);
        assert members[i + 1].key == tail[j].key;
      }
    }
  }

  lemma SortedNormal(members: Members) returns (s: Members)
    ensures s == Sort(NormalMembers(members)) && Ordered(s)
    ensures forall m :: m in s <==> m in NormalMembers(members)
    ensures DistinctKeys(members) ==> DistinctKeys(s)
  {
    var n := NormalMembers(members);
    s := Sort(n);
    SortOrders(n);
    assert forall m :: m in s <==> m in multiset(s);
    assert forall m :: m in n <==> m in multiset(n);
    if DistinctKeys(members) {
      NormalMembersDistinct(members);
      SortKeepsDistinct(n);
    }
  }

  lemma {:induction false} InsertKeepsDistinct<A>(x: Keyed<A>, xs: seq<Keyed<A>>)
    requires DistinctKeys(xs) && forall i :: 0 <= i < |xs| ==> xs[i].key != x.key
    ensures DistinctKeys(Insert(x, xs))
    ensures forall i :: 0 <= i < |Insert(x, xs)| ==> Insert(x, xs)[i] == x || Insert(x, xs)[i] in xs
  {
    if xs != [] && Less(xs[0].key, x.key) {
      InsertKeepsDistinct(x, xs[1..]);
      var tail := Insert(x, xs[1..]);
      forall j | 0 <= j < |tail| ensures tail[j].key != xs[0].key && (tail[j] == x || tail[j] in xs) {
        if tail[j] != x {
          var k :| 0 <= k < |xs[1..]| && xs[1..][k] == tail[j];
          assert xs[k + 1] == tail[j];
        }
      }
    }
  }

  lemma {:induction false} SortKeepsDistinct<A>(xs: seq<Keyed<A>>)
    requires DistinctKeys(xs)
    ensures DistinctKeys(Sort(xs))
  {
    if xs != [] {
      SortKeepsDistinct(xs[1..]);
      SortOrders(xs[1..]);
      var s := Sort(xs[1..]);
      forall i | 0 <= i < |s| ensures s[i].key != xs[0].key {
        assert s[i] in multiset(s);
        assert s[i] in xs[1..];
        var k :| 0 <= k < |xs[1..]| && xs[1..][k] == s[i];
        assert xs[k + 1] == s[i];
      }
      InsertKeepsDistinct(xs[0], s);
    }
  }

  lemma {:induction false} NormalIffSame(a: Value, b: Value)
    requires WellFormed(a) && WellFormed(b)
    ensures Normal(a) == Normal(b) <==> Same(a, b)
    decreases a
  {
    match (a, b)
    case (Array(x), Array(y)) =>
      NormalItemsAt(x);
      NormalItemsAt(y);
      if |x| == |y| {
        forall i | 0 <= i < |x| ensures NormalItems(x)[i] == NormalItems(y)[i] <==> Same(x[i], y[i]) {
          NormalIffSame(x[i], y[i]);
        }
        if Same(a, b) { assert NormalItems(x) == NormalItems(y); }
      }
    case (Object(x), Object(y)) =>
      forall i, j | 0 <= i < |x| && 0 <= j < |y| && x[i].item.Some? && y[j].item.Some?
        ensures Normal(x[i].item.value) == Normal(y[j].item.value) <==> Same(x[i].item.value, y[j].item.value)
      {
        NormalIffSame(x[i].item.value, y[j].item.value);
      }
      MembersIffSame(x, y);
    case _ =>
  }

  lemma {:induction false} NormalItemsAt(items: seq<Value>)
    ensures forall i :: 0 <= i < |items| ==> NormalItems(items)[i] == Normal(items[i])
    decreases items
  {
    if items != [] { NormalItemsAt(items[1..]); }
  }

  lemma MembersIffSame(x: Members, y: Members)
    requires DistinctKeys(x) && DistinctKeys(y)
    requires forall i, j :: 0 <= i < |x| && 0 <= j < |y| && x[i].item.Some? && y[j].item.Some? ==>
               (Normal(x[i].item.value) == Normal(y[j].item.value) <==> Same(x[i].item.value, y[j].item.value))
    ensures Normal(Object(x)) == Normal(Object(y)) <==> Same(Object(x), Object(y))
  {
    var s := SortedNormal(x);
    var t := SortedNormal(y);
    NormalMembersFrom(x);
    NormalMembersFrom(y);
    if s == t { SameFromNormal(x, y); }
    if Same(Object(x), Object(y)) {
      forall m ensures m in s <==> m in t {
        if m in s { MembersForward(x, y, m); }
        if m in t { MembersBackward(x, y, m); }
      }
      OrderedUnique(s, t);
    }
  }

  /** A property of one object reappears, normalized, in the other. */
  lemma Counterpart(x: Members, y: Members, i: int) returns (j: int)
    requires 0 <= i < |x| && x[i].item.Some?
    requires forall m :: m in NormalMembers(x) ==> m in NormalMembers(y)
    ensures DefinedAt(y, j, x[i].key) && Normal(x[i].item.value) == Normal(y[j].item.value)
  {
    hide Normal, NormalMembers;
    NormalMembersFrom(x);
    NormalMembersFrom(y);
    var m := Keyed(x[i].key, Some(Normal(x[i].item.value)));
    assert m in NormalMembers(y);
    j :| DefinedAt(y, j, m.key) && m.item == Some(Normal(y[j].item.value));
  }

  lemma SameFromNormal(x: Members, y: Members)
    requires forall m :: m in NormalMembers(x) <==> m in NormalMembers(y)
    requires forall i, j :: 0 <= i < |x| && 0 <= j < |y| && x[i].item.Some? && y[j].item.Some? ==>
               (Normal(x[i].item.value) == Normal(y[j].item.value) <==> Same(x[i].item.value, y[j].item.value))
    ensures Same(Object(x), Object(y))
  {
    hide Normal, NormalMembers, WellFormed;
    forall i | 0 <= i < |x| && x[i].item.Some?
      ensures exists j :: DefinedAt(y, j, x[i].key) && Same(x[i].item.value, y[j].item.value)
    {
      var j := Counterpart(x, y, i);
    }
    forall j | 0 <= j < |y| && y[j].item.Some? ensures exists i :: DefinedAt(x, i, y[j].key) {
      var i := Counterpart(y, x, j);
    }
  }

  lemma MembersForward(x: Members, y: Members, m: Keyed<Option<Value>>)
    requires forall i, j :: 0 <= i < |x| && 0 <= j < |y| && x[i].item.Some? && y[j].item.Some? ==>
               (Normal(x[i].item.value) == Normal(y[j].item.value) <==> Same(x[i].item.value, y[j].item.value))
    requires Same(Object(x), Object(y))
    requires m in NormalMembers(x)
    ensures m in NormalMembers(y)
  {
    hide Normal, NormalMembers, WellFormed;
    NormalMembersFrom(x);
    NormalMembersFrom(y);
    var i :| DefinedAt(x, i, m.key) && m.item == Some(Normal(x[i].item.value));
    var j :| DefinedAt(y, j, x[i].key) && Same(x[i].item.value, y[j].item.value);
    assert Keyed(y[j].key, Some(Normal(y[j].item.value))) in NormalMembers(y);
  }

  lemma MembersBackward(x: Members, y: Members, m: Keyed<Option<Value>>)
    requires DistinctKeys(y)
    requires forall i, j :: 0 <= i < |x| && 0 <= j < |y| && x[i].item.Some? && y[j].item.Some? ==>
               (Normal(x[i].item.value) == Normal(y[j].item.value) <==> Same(x[i].item.value, y[j].item.value))
    requires Same(Object(x), Object(y))
    requires m in NormalMembers(y)
    ensures m in NormalMembers(x)
  {
    hide Normal, NormalMembers, WellFormed;
    NormalMembersFrom(x);
    NormalMembersFrom(y);
    var j :| DefinedAt(y, j, m.key) && m.item == Some(Normal(y[j].item.value));
    var i :| DefinedAt(x, i, y[j].key);
    var k :| DefinedAt(y, k, x[i].key) && Same(x[i].item.value, y[k].item.value);
    assert k == j;
    assert Keyed(x[i].key, Some(Normal(x[i].item.value))) in NormalMembers(x);
  }

  // ----- main results -----

  lemma {:induction false} NormalHasTokens(v: Value)
    requires WellFormed(v)
    ensures Tokens(Normal(v))
    decreases v
  {
    match v
    case Array(items) =>
      NormalItemsAt(items);
      forall i | 0 <= i < |items| ensures Tokens(NormalItems(items)[i]) { NormalHasTokens(items[i]); }
    case Object(members) =>
      NormalMembersFrom(members);
      var s := SortedNormal(members);
      forall k | 0 <= k < |s| ensures s[k].item.Some? && Tokens(s[k].item.value) {
        assert s[k] in NormalMembers(members);
        var i :| DefinedAt(members, i, s[k].key) && s[k].item == Some(Normal(members[i].item.value));
        NormalHasTokens(members[i].item.value);
      }
    case _ =>
  }

  /** Parsing what was printed gives the value back, properties in key order. */
  lemma ParsePrint(v: Value)
    requires WellFormed(v)
    ensures ParseValue(Print(v)) == Some((Normal(v), []))
  {
    PrintIsRenderedNormal(v);
    NormalHasTokens(v);
    ValueRoundTrip(Normal(v), []);
    assert Render(Normal(v)) + [] == Render(Normal(v));
  }

  /** Two values print alike if and only if they are the same up to property order. */
  lemma CanonicalForm(a: Value, b: Value)
    requires WellFormed(a) && WellFormed(b)
    ensures Print(a) == Print(b) <==> Same(a, b)
  {
    ParsePrint(a);
    ParsePrint(b);
    PrintIsRenderedNormal(a);
    PrintIsRenderedNormal(b);
    NormalIffSame(a, b);
  }

  lemma {:induction false} NormalIsNormal(v: Value)
    ensures Normal(Normal(v)) == Normal(v)
    decreases v
  {
    match v
    case Array(items) =>
      NormalItemsAt(items);
      NormalItemsAt(NormalItems(items));
      forall i | 0 <= i < |items| ensures Normal(Normal(items[i])) == Normal(items[i]) { NormalIsNormal(items[i]); }
      assert NormalItems(NormalItems(items)) == NormalItems(items);
    case Object(members) =>
      NormalMembersFrom(members);
      var s := SortedNormal(members);
      forall k | 0 <= k < |s| ensures s[k].item.Some? && Normal(s[k].item.value) == s[k].item.value {
        assert s[k] in NormalMembers(members);
        var i :| DefinedAt(members, i, s[k].key) && s[k].item == Some(Normal(members[i].item.value));
        NormalIsNormal(members[i].item.value);
      }
      NormalMembersFixed(s);
      SortOfOrdered(s);
    case _ =>
  }

  lemma {:induction false} NormalMembersFixed(members: Members)
    requires forall k :: 0 <= k < |members| ==>
               members[k].item.Some? && Normal(members[k].item.value) == members[k].item.value
    ensures NormalMembers(members) == members
    decreases members
  {
    if members != [] {
      NormalMembersFixed(members[1..]);
      HeadTail(members);
    }
  }

  /** Storing the printed text and reading it back prints the same text again. */
  lemma PrintOfNormal(v: Value)
    ensures Print(Normal(v)) == Print(v)
  {
    PrintIsRenderedNormal(v);
    PrintIsRenderedNormal(Normal(v));
    NormalIsNormal(v);
  }

  // ----- the order that is printed -----

  /** The first difference decides, and a beginning comes before what it begins. */
  ghost predicate Precedes(a: Text, b: Text) {
    exists k :: 0 <= k <= |a| && k < |b| && a[..k] == b[..k] && (k == |a| || a[k] < b[k])
  }

  lemma {:induction false} LessIsPrecedes(a: Text, b: Text)
    ensures Less(a, b) <==> Precedes(a, b)
  {
    if a == [] || b == [] || a[0] != b[0] {
      assert b != [] && (a == [] || a[0] < b[0]) ==> a[..0] == b[..0];
      assert forall n :: 0 < n <= |a| && n < |b| ==> a[..n][0] == a[0] && b[..n][0] == b[0];
    } else {
      LessIsPrecedes(a[1..], b[1..]);
      if k :| 0 <= k <= |a[1..]| && k < |b[1..]| && a[1..][..k] == b[1..][..k]
              && (k == |a[1..]| || a[1..][k] < b[1..][k])
      {
        assert a[..k + 1] == [a[0]] + a[1..][..k] && b[..k + 1] == [b[0]] + b[1..][..k];
        assert 0 <= k + 1 <= |a| && k + 1 < |b| && a[..k + 1] == b[..k + 1] && (k + 1 == |a| || a[k + 1] < b[k + 1]);
      }
      if k :| 0 <= k <= |a| && k < |b| && a[..k] == b[..k] && (k == |a| || a[k] < b[k]) {
        assert a[1..][..k - 1] == a[..k][1..] && b[1..][..k - 1] == b[..k][1..];
      }
    }
  }

  lemma {:induction false} PrintedMembers(members: Members)
    ensures forall e :: e in PrintMembers(members) <==>
              exists i :: DefinedAt(members, i, e.key) && e.item == Print(members[i].item.value)
    ensures DistinctKeys(members) ==> DistinctKeys(PrintMembers(members))
  {
    if members != [] {
      PrintedMembers(members[1..]);
      var (rest, printed) := (PrintMembers(members[1..]), PrintMembers(members));
      forall e
        ensures e in printed <==> exists i :: DefinedAt(members, i, e.key) && e.item == Print(members[i].item.value)
      {
        if e in rest {
          var i :| DefinedAt(members[1..], i, e.key) && e.item == Print(members[1..][i].item.value);
          assert DefinedAt(members, i + 1, e.key);
        } else if e in printed {
          assert DefinedAt(members, 0, e.key);
        }
        if i :| DefinedAt(members, i, e.key) && e.item == Print(members[i].item.value) {
          if i > 0 { assert DefinedAt(members[1..], i - 1, e.key); } else { assert e == printed[0]; }
        }
      }
      if DistinctKeys(members) && members[0].item.Some? {
        forall j | 0 <= j < |rest| ensures rest[j].key != members[0].key {
          assert rest[j] in rest;
          var i :| DefinedAt(members[1..], i, rest[j].key);
          assert members[i + 1].key != members[0].key;
        }
      }
    }
  }

  /** These are the printed entries of the defined properties, each once, in ascending order of their names. */
  ghost predicate Entries(members: Members, entries: seq<Keyed<Text>>) {
    && (forall i, j :: 0 <= i < j < |entries| ==> Precedes(entries[i].key, entries[j].key))
    && (forall e :: e in entries <==>
          exists i :: DefinedAt(members, i, e.key) && e.item == Print(members[i].item.value))
  }

  /** An object prints its defined properties in ascending order of their names, code unit by code unit. */
  lemma PrintsAscending(members: Members)
    requires DistinctKeys(members)
    ensures exists entries ::
              Entries(members, entries) && Print(Object(members)) == [LBRACE] + JoinEntries(entries) + [RBRACE]
  {
    var printed := PrintMembers(members);
    var entries: seq<Keyed<Text>> := Sort(printed);
    PrintedMembers(members);
    SortOrders(printed);
    forall e ensures e in entries <==> e in printed { assert e in multiset(entries) <==> e in multiset(printed); }
    SortKeepsDistinct(printed);
    forall i, j | 0 <= i < j < |entries| ensures Precedes(entries[i].key, entries[j].key) {
      LessIsStrict(entries[i].key, entries[j].key);
      LessIsPrecedes(entries[i].key, entries[j].key);
    }
    assert Entries(members, entries);
  }
}
