/** How many bytes a value takes when it is written out with its members in the order given. */
module JsonBytes {
  import opened Prelude
  import opened Json

  type Member = Keyed<Option<Value>>
  type Members = seq<Member>

  // ----- UTF-16 text as UTF-8 -----

  /** A surrogate pair takes four bytes, a lone surrogate those of the replacement character. */
  function Bytes(t: Text): nat {
    if t == [] then 0
    else if |t| > 1 && HighSurrogate(t[0]) && LowSurrogate(t[1]) then 4 + Bytes(t[2..])
    else (if t[0] < 0x80 then 1 else if t[0] < 0x800 then 2 else 3) + Bytes(t[1..])
  }

  /** Nothing pairs up with what stands before this text. */
  predicate Detached(t: Text) { t == [] || !LowSurrogate(t[0]) }

  lemma {:induction false} BytesOfSum(a: Text, b: Text)
    requires Detached(b)
    ensures Bytes(a + b) == Bytes(a) + Bytes(b)
  {
    if a == [] {
      assert a + b == b;
    } else if |a| > 1 && HighSurrogate(a[0]) && LowSurrogate(a[1]) {
      assert (a + b)[2..] == a[2..] + b;
      BytesOfSum(a[2..], b);
    } else {
      assert (a + b)[1..] == a[1..] + b;
      BytesOfSum(a[1..], b);
    }
  }

  predicate Plain(t: Text) { forall i :: 0 <= i < |t| ==> t[i] < 0x80 }

  lemma {:induction false} PlainBytes(t: Text)
    requires Plain(t)
    ensures Bytes(t) == |t| && Detached(t)
  {
    if t != [] { PlainBytes(t[1..]); }
  }

  /** What stands before and after one unit that is plain. */
  lemma BytesAround(a: Text, c: CodeUnit, b: Text)
    requires c < 0x80 && Detached(b)
    ensures Bytes(a + [c] + b) == Bytes(a) + 1 + Bytes(b)
  {
    BytesOfSum([c], b);
    BytesOfSum(a, [c] + b);
    assert a + [c] + b == a + ([c] + b);
  }

  // ----- values -----

  /** Every number in the value is written with number characters. */
  ghost predicate Numbered(v: Value)
    decreases v
  {
    match v
    case Number(token) => ValidToken(token)
    case Array(items) => forall i :: 0 <= i < |items| ==> Numbered(items[i])
    case Object(members) => forall i :: 0 <= i < |members| && members[i].item.Some? ==> Numbered(members[i].item.value)
    case _ => true
  }

  lemma WrittenDetached(v: Value)
    requires Numbered(v)
    ensures Render(v) != [] && Detached(Render(v))
  {
  }

  /** One member with its key, colon and the comma after it. */
  function FieldBytes(key: Text, v: Value): nat { Bytes(Quote(key)) + 2 + Bytes(Render(v)) }

  function MemberBytes(members: Members): nat {
    if members == [] then 0
    else
      (if members[0].item.Some? then FieldBytes(members[0].key, members[0].item.value) else 0)
      + MemberBytes(members[1..])
  }

  /** The items with a comma after each. */
  function ItemBytes(items: seq<Value>): nat {
    if items == [] then 0 else Bytes(Render(items[0])) + 1 + ItemBytes(items[1..])
  }

  lemma {:induction false} MemberBytesOfSum(a: Members, b: Members)
    ensures MemberBytes(a + b) == MemberBytes(a) + MemberBytes(b)
  {
    if a == [] {
      assert a + b == b;
    } else {
      assert (a + b)[1..] == a[1..] + b;
      MemberBytesOfSum(a[1..], b);
    }
  }

  lemma {:induction false} ItemBytesOfSum(a: seq<Value>, b: seq<Value>)
    ensures ItemBytes(a + b) == ItemBytes(a) + ItemBytes(b)
  {
    if a == [] {
      assert a + b == b;
    } else {
      assert (a + b)[1..] == a[1..] + b;
      ItemBytesOfSum(a[1..], b);
    }
  }

  // ----- what is written takes what its parts take -----

  function EntryBytes(entries: seq<Keyed<Text>>): nat {
    if entries == [] then 0 else Bytes(Quote(entries[0].key)) + 2 + Bytes(entries[0].item) + EntryBytes(entries[1..])
  }

  lemma EntryHead(e: Keyed<Text>, rest: Text)
    requires Detached(e.item) && Detached(rest)
    ensures Bytes(Quote(e.key) + [COLON] + e.item + rest) == Bytes(Quote(e.key)) + 1 + Bytes(e.item) + Bytes(rest)
  {
    BytesAround(Quote(e.key), COLON, e.item);
    BytesOfSum(Quote(e.key) + [COLON] + e.item, rest);
  }

  lemma {:induction false} JoinedBytes(entries: seq<Keyed<Text>>)
    requires forall i :: 0 <= i < |entries| ==> Detached(entries[i].item)
    ensures Bytes(JoinEntries(entries)) == if entries == [] then 0 else EntryBytes(entries) - 1
    ensures Detached(JoinEntries(entries))
  {
    if entries != [] {
      var (e, rest) := (entries[0], JoinEntries(entries[1..]));
      JoinedBytes(entries[1..]);
      if |entries| == 1 {
        EntryHead(e, []);
        assert Quote(e.key) + [COLON] + e.item + [] == JoinEntries(entries);
      } else {
        BytesAround([], COMMA, rest);
        assert [] + [COMMA] + rest == [COMMA] + rest;
        EntryHead(e, [COMMA] + rest);
        assert Quote(e.key) + [COLON] + e.item + ([COMMA] + rest) == JoinEntries(entries);
      }
    }
  }

  lemma {:induction false} RenderedEntries(members: Members)
    requires forall i :: 0 <= i < |members| && members[i].item.Some? ==> Numbered(members[i].item.value)
    ensures EntryBytes(RenderMembers(members)) == MemberBytes(members)
    ensures forall i :: 0 <= i < |RenderMembers(members)| ==> Detached(RenderMembers(members)[i].item)
    ensures |RenderMembers(members)| <= |members|
    ensures (exists i :: 0 <= i < |members| && members[i].item.Some?) ==> RenderMembers(members) != []
  {
    if members != [] {
      RenderedEntries(members[1..]);
      if members[0].item.Some? {
        WrittenDetached(members[0].item.value);
        assert RenderMembers(members)[1..] == RenderMembers(members[1..]);
      } else {
        forall i | 0 <= i < |members| && members[i].item.Some? ensures RenderMembers(members) != [] {
          assert members[1..][i - 1].item.Some?;
        }
      }
    }
  }

  /** An object with a member: its braces and its members, one comma less than members. */
  lemma ObjectBytes(members: Members)
    requires Numbered(Object(members)) && exists i :: 0 <= i < |members| && members[i].item.Some?
    ensures Bytes(Render(Object(members))) == 1 + MemberBytes(members)
  {
    hide Bytes, JoinEntries, Numbered, MemberBytes, EntryBytes, Quote;
    MembersAreNumbered(members);
    RenderedEntries(members);
    JoinedBytes(RenderMembers(members));
    Bracketed(LBRACE, JoinEntries(RenderMembers(members)), RBRACE);
  }

  lemma MembersAreNumbered(members: Members)
    requires Numbered(Object(members))
    ensures forall i :: 0 <= i < |members| && members[i].item.Some? ==> Numbered(members[i].item.value)
  {
  }

  lemma Bracketed(left: CodeUnit, t: Text, right: CodeUnit)
    requires left < 0x80 && right < 0x80 && Detached(t)
    ensures Bytes([left] + t + [right]) == Bytes(t) + 2
  {
    BytesOfSum([left], t);
    BytesOfSum([left] + t, [right]);
  }

  lemma {:induction false} RenderedItems(items: seq<Value>)
    requires forall i :: 0 <= i < |items| ==> Numbered(items[i])
    ensures Bytes(RenderItems(items)) == if items == [] then 0 else ItemBytes(items) - 1
    ensures Detached(RenderItems(items))
  {
    if items != [] {
      var rest := RenderItems(items[1..]);
      RenderedItems(items[1..]);
      WrittenDetached(items[0]);
      if |items| > 1 { BytesAround(Render(items[0]), COMMA, rest); }
    }
  }

  lemma ArrayBytes(items: seq<Value>)
    requires Numbered(Array(items))
    ensures Bytes(Render(Array(items))) == if items == [] then 2 else 1 + ItemBytes(items)
  {
    hide Bytes;
    RenderedItems(items);
    Bracketed(LBRACKET, RenderItems(items), RBRACKET);
    assert Bytes([]) == 0 by { PlainBytes([]); }
  }

  /** A unit that a string literal shows as it is. */
  predicate Literal(c: CodeUnit) { 0x20 <= c < 0x80 && c != QUOTE && c != BACKSLASH }

  lemma {:induction false} LiteralBytes(t: Text)
    requires forall i :: 0 <= i < |t| ==> Literal(t[i])
    ensures Bytes(QuoteBody(t)) == |t| + 1 && Detached(QuoteBody(t))
  {
    if t != [] {
      LiteralBytes(t[1..]);
      BytesOfSum([t[0]], QuoteBody(t[1..]));
    }
  }

  lemma LiteralString(t: Text)
    requires forall i :: 0 <= i < |t| ==> Literal(t[i])
    ensures Bytes(Render(String(t))) == |t| + 2
  {
    LiteralBytes(t);
    BytesOfSum([QUOTE], QuoteBody(t));
  }
}
