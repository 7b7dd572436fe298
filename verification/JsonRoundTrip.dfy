/**
 An inverse of the canonical printer (RFC 8259, sections 2 to 7), and what it
 shows: two values print alike exactly when they are the same up to the order
 of object properties.
 */
module JsonRoundTrip {
  import opened Prelude
  import opened Json

  // ----- the inverse parser -----

  function HexValue(c: CodeUnit): Option<int> {
    if 0x30 <= c <= 0x39 then Some(c - 0x30)
    else if 0x61 <= c <= 0x66 then Some(c - 0x61 + 10)
    else if 0x41 <= c <= 0x46 then Some(c - 0x41 + 10)
    else None
  }

  function ParseHex(t: Text): Option<CodeUnit>
    requires |t| == 4
  {
    match (HexValue(t[0]), HexValue(t[1]), HexValue(t[2]), HexValue(t[3]))
    case (Some(a), Some(b), Some(c), Some(d)) =>
      var code := 4096 * a + 256 * b + 16 * c + d;
      if 0 <= code < 0x1_0000 then Some(code) else None
    case _ => None
  }

  function SimpleEscape(c: CodeUnit): Option<CodeUnit> {
    if c == QUOTE || c == BACKSLASH || c == 0x2F then Some(c)
    else if c == 0x62 then Some(0x08)
    else if c == 0x74 then Some(0x09)
    else if c == 0x6E then Some(0x0A)
    else if c == 0x66 then Some(0x0C)
    else if c == 0x72 then Some(0x0D)
    else None
  }

  function Prepend(c: CodeUnit, r: Option<(Text, Text)>): Option<(Text, Text)> {
    if r.None? then None else Some(([c] + r.value.0, r.value.1))
  }

  /** Reads to the closing quotation mark; the second part is what follows it. */
  function ParseBody(t: Text): (r: Option<(Text, Text)>)
    ensures r.Some? ==> |r.value.1| < |t|
  {
    if t == [] || t[0] < 0x20 then None
    else if t[0] == QUOTE then Some(([], t[1..]))
    else if t[0] != BACKSLASH then Prepend(t[0], ParseBody(t[1..]))
    else if |t| < 2 then None
    else if t[1] == 0x75 then
      if |t| < 6 || ParseHex(t[2..6]).None? then None
      else Prepend(ParseHex(t[2..6]).value, ParseBody(t[6..]))
    else if SimpleEscape(t[1]).None? then None
    else Prepend(SimpleEscape(t[1]).value, ParseBody(t[2..]))
  }

  function NumberLength(t: Text): (n: nat)
    ensures n <= |t|
  {
    if t == [] || !NumberUnit(t[0]) then 0 else 1 + NumberLength(t[1..])
  }

  function ParseValue(t: Text): (r: Option<(Value, Text)>)
    ensures r.Some? ==> |r.value.1| < |t|
    decreases |t|, 0
  {
    if t == [] then None
    else if t[0] == 0x6E then if NULL_WORD <= t then Some((Null, t[4..])) else None
    else if t[0] == 0x74 then if TRUE_WORD <= t then Some((Bool(true), t[4..])) else None
    else if t[0] == 0x66 then if FALSE_WORD <= t then Some((Bool(false), t[5..])) else None
    else if t[0] == QUOTE then
      var body := ParseBody(t[1..]);
      if body.None? then None else Some((String(body.value.0), body.value.1))
    else if t[0] == LBRACKET then
      if |t| > 1 && t[1] == RBRACKET then Some((Array([]), t[2..]))
      else
        var items := ParseItems(t[1..]);
        if items.None? then None else Some((Array(items.value.0), items.value.1))
    else if t[0] == LBRACE then
      if |t| > 1 && t[1] == RBRACE then Some((Object([]), t[2..]))
      else
        var members := ParseMembers(t[1..]);
        if members.None? then None else Some((Object(members.value.0), members.value.1))
    else if t[0] == 0x2D || 0x30 <= t[0] <= 0x39 then
      Some((Number(t[..NumberLength(t)]), t[NumberLength(t)..]))
    else None
  }

  /** One item or more, separated by commas, up to the closing bracket. */
  function ParseItems(t: Text): (r: Option<(seq<Value>, Text)>)
    ensures r.Some? ==> |r.value.1| < |t|
    decreases |t|, 1
  {
    var first := ParseValue(t);
    if first.None? || first.value.1 == [] then None
    else
      var (v, rest) := first.value;
      if rest[0] == RBRACKET then Some(([v], rest[1..]))
      else if rest[0] != COMMA then None
      else
        var others := ParseItems(rest[1..]);
        if others.None? then None else Some(([v] + others.value.0, others.value.1))
  }

  function ParseMembers(t: Text): (r: Option<(seq<Keyed<Option<Value>>>, Text)>)
    ensures r.Some? ==> |r.value.1| < |t|
    decreases |t|, 1
  {
    if t == [] || t[0] != QUOTE then None
    else
      var key := ParseBody(t[1..]);
      if key.None? || key.value.1 == [] || key.value.1[0] != COLON then None
      else
        var first := ParseValue(key.value.1[1..]);
        if first.None? || first.value.1 == [] then None
        else
          var (v, rest) := first.value;
          var member := Keyed(key.value.0, Some(v));
          if rest[0] == RBRACE then Some(([member], rest[1..]))
          else if rest[0] != COMMA then None
          else
            var others := ParseMembers(rest[1..]);
            if others.None? then None else Some(([member] + others.value.0, others.value.1))
  }

  // ----- sequences -----

  lemma Assoc(a: Text, b: Text, c: Text)
    ensures (a + b) + c == a + (b + c)
  {
  }

  lemma DropHead(c: CodeUnit, rest: Text)
    ensures ([c] + rest)[1..] == rest && ([c] + rest)[0] == c
  {
  }

  lemma HeadTail<A>(xs: seq<A>)
    requires xs != []
    ensures xs == [xs[0]] + xs[1..]
  {
  }

  // ----- strings -----

  lemma HexDigits(c: CodeUnit) returns (a: int, b: int, d: int, e: int)
    ensures a == c / 16 / 16 / 16 && b == c / 16 / 16 % 16 && d == c / 16 % 16 && e == c % 16
    ensures 0 <= a < 16 && 0 <= b < 16 && 0 <= d < 16 && 0 <= e < 16
    ensures c == 4096 * a + 256 * b + 16 * d + e
  {
    var x := c / 16;
    var y := x / 16;
    a, b, d, e := y / 16, y % 16, x % 16, c % 16;
    assert c == 16 * x + e && x == 16 * y + d && y == 16 * a + b;
  }

  lemma HexRoundTrip(t: Text, a: int, b: int, d: int, e: int)
    requires 0 <= a < 16 && 0 <= b < 16 && 0 <= d < 16 && 0 <= e < 16
    requires t == [HexDigit(a), HexDigit(b), HexDigit(d), HexDigit(e)]
    ensures ParseHex(t) == Some(4096 * a + 256 * b + 16 * d + e)
  {
    assert HexValue(t[0]) == Some(a) && HexValue(t[1]) == Some(b);
    assert HexValue(t[2]) == Some(d) && HexValue(t[3]) == Some(e);
  }

  lemma UnicodeRoundTrip(c: CodeUnit, rest: Text)
    ensures ParseBody(UnicodeEscape(c) + rest) == Prepend(c, ParseBody(rest))
  {
    var a, b, d, e := HexDigits(c);
    var t := UnicodeEscape(c) + rest;
    assert t[2..6] == [HexDigit(a), HexDigit(b), HexDigit(d), HexDigit(e)];
    HexRoundTrip(t[2..6], a, b, d, e);
    assert t[6..] == rest;
    assert t[0] == BACKSLASH && t[1] == 0x75 && |t| >= 6;
  }

  lemma RawRoundTrip(c: CodeUnit, rest: Text)
    requires c >= 0x20 && c != QUOTE && c != BACKSLASH
    ensures ParseBody([c] + rest) == Prepend(c, ParseBody(rest))
  {
    assert ([c] + rest)[1..] == rest;
  }

  lemma EscapeRoundTrip(c: CodeUnit, rest: Text)
    ensures ParseBody(Escape(c) + rest) == Prepend(c, ParseBody(rest))
  {
    var t := Escape(c) + rest;
    if Escape(c) == UnicodeEscape(c) {
      UnicodeRoundTrip(c, rest);
    } else if |Escape(c)| == 2 {
      assert t[2..] == rest;
      assert t[0] == BACKSLASH && t[1] == Escape(c)[1];
    } else {
      RawRoundTrip(c, rest);
    }
  }

  lemma EndRoundTrip(rest: Text)
    ensures ParseBody([QUOTE] + rest) == Some(([], rest))
  {
    DropHead(QUOTE, rest);
  }

  lemma PairRoundTrip(c: CodeUnit, d: CodeUnit, rest: Text)
    requires HighSurrogate(c) && LowSurrogate(d)
    ensures ParseBody([c, d] + rest) == Prepend(c, Prepend(d, ParseBody(rest)))
  {
    RawRoundTrip(d, rest);
    RawRoundTrip(c, [d] + rest);
    assert [c, d] + rest == [c] + ([d] + rest);
  }

  lemma {:induction false} BodyRoundTrip(s: Text, rest: Text)
    ensures ParseBody(QuoteBody(s) + rest) == Some((s, rest))
  {
    hide Escape, ParseBody;
    if s == [] {
      EndRoundTrip(rest);
    } else if |s| > 1 && HighSurrogate(s[0]) && LowSurrogate(s[1]) {
      BodyRoundTrip(s[2..], rest);
      assert s[..2] == [s[0], s[1]];
      Assoc([s[0], s[1]], QuoteBody(s[2..]), rest);
      PairRoundTrip(s[0], s[1], QuoteBody(s[2..]) + rest);
      assert s == [s[0]] + ([s[1]] + s[2..]);
    } else {
      BodyRoundTrip(s[1..], rest);
      Assoc(Escape(s[0]), QuoteBody(s[1..]), rest);
      EscapeRoundTrip(s[0], QuoteBody(s[1..]) + rest);
      HeadTail(s);
    }
  }

  // ----- values -----

  /** No token follows directly, so a number ends where its token ends. */
  predicate EndsNumber(rest: Text) { rest == [] || !NumberUnit(rest[0]) }

  ghost predicate Tokens(v: Value)
    decreases v
  {
    match v
    case Number(token) => ValidToken(token)
    case Array(items) => forall i :: 0 <= i < |items| ==> Tokens(items[i])
    case Object(members) =>
      forall i :: 0 <= i < |members| ==> members[i].item.Some? && Tokens(members[i].item.value)
    case _ => true
  }

  lemma {:induction false} NumberLengthOf(token: Text, rest: Text)
    requires forall i :: 0 <= i < |token| ==> NumberUnit(token[i])
    requires EndsNumber(rest)
    ensures NumberLength(token + rest) == |token|
  {
    if token != [] {
      NumberLengthOf(token[1..], rest);
      assert (token + rest)[1..] == token[1..] + rest;
    } else {
      assert token + rest == rest;
    }
  }

  lemma WordRoundTrip(word: Text, rest: Text)
    ensures word <= word + rest && (word + rest)[|word|..] == rest
  {
  }

  lemma NumberRoundTrip(token: Text, rest: Text)
    requires ValidToken(token) && EndsNumber(rest)
    ensures ParseValue(token + rest) == Some((Number(token), rest))
  {
    NumberLengthOf(token, rest);
    WordRoundTrip(token, rest);
    assert (token + rest)[..|token|] == token;
    assert (token + rest)[0] == token[0];
  }

  lemma StringRoundTrip(s: Text, rest: Text)
    ensures ParseValue(Quote(s) + rest) == Some((String(s), rest))
  {
    BodyRoundTrip(s, rest);
    assert (Quote(s) + rest)[1..] == QuoteBody(s) + rest;
  }

  lemma ArrayRoundTrip(items: seq<Value>, rest: Text)
    requires items != [] ==>
               && ParseItems(RenderItems(items) + ([RBRACKET] + rest)) == Some((items, rest))
               && RenderItems(items) != [] && RenderItems(items)[0] != RBRACKET
    ensures ParseValue(([LBRACKET] + RenderItems(items) + [RBRACKET]) + rest) == Some((Array(items), rest))
  {
    hide ParseItems, ParseMembers, ParseBody, RenderItems;
    var t := ([LBRACKET] + RenderItems(items) + [RBRACKET]) + rest;
    if items == [] {
      assert RenderItems(items) == [] by { EmptyItems(); }
      assert t == [LBRACKET, RBRACKET] + rest;
      WordRoundTrip([LBRACKET, RBRACKET], rest);
    } else {
      assert t == [LBRACKET] + (RenderItems(items) + ([RBRACKET] + rest));
      DropHead(LBRACKET, RenderItems(items) + ([RBRACKET] + rest));
    }
  }

  lemma EmptyItems()
    ensures RenderItems([]) == [] && JoinEntries(RenderMembers([])) == []
  {
  }

  lemma ObjectRoundTrip(members: seq<Keyed<Option<Value>>>, rest: Text)
    requires members != [] ==>
               && ParseMembers(JoinEntries(RenderMembers(members)) + ([RBRACE] + rest)) == Some((members, rest))
               && JoinEntries(RenderMembers(members)) != [] && JoinEntries(RenderMembers(members))[0] == QUOTE
    ensures ParseValue(([LBRACE] + JoinEntries(RenderMembers(members)) + [RBRACE]) + rest)
            == Some((Object(members), rest))
  {
    hide ParseItems, ParseMembers, ParseBody, RenderMembers, JoinEntries;
    var inner := JoinEntries(RenderMembers(members));
    var t := ([LBRACE] + inner + [RBRACE]) + rest;
    if members == [] {
      assert inner == [] by { EmptyItems(); }
      assert t == [LBRACE, RBRACE] + rest;
      WordRoundTrip([LBRACE, RBRACE], rest);
    } else {
      assert t == [LBRACE] + (inner + ([RBRACE] + rest));
      DropHead(LBRACE, inner + ([RBRACE] + rest));
    }
  }

  lemma WordsRoundTrip(rest: Text)
    ensures ParseValue(NULL_WORD + rest) == Some((Null, rest))
    ensures ParseValue(TRUE_WORD + rest) == Some((Bool(true), rest))
    ensures ParseValue(FALSE_WORD + rest) == Some((Bool(false), rest))
  {
    WordRoundTrip(NULL_WORD, rest);
    WordRoundTrip(TRUE_WORD, rest);
    WordRoundTrip(FALSE_WORD, rest);
  }

  lemma {:induction false} ValueRoundTrip(v: Value, rest: Text)
    requires Tokens(v) && EndsNumber(rest)
    ensures ParseValue(Render(v) + rest) == Some((v, rest))
    decreases v, 0
  {
    hide ParseValue, ParseItems, ParseMembers, RenderItems, RenderMembers, JoinEntries, Quote;
    match v
    case Null => WordsRoundTrip(rest);
    case Bool(b) => WordsRoundTrip(rest);
    case Number(token) => NumberRoundTrip(token, rest);
    case String(s) => StringRoundTrip(s, rest);
    case Array(items) =>
      if items != [] { ItemsRoundTrip(items, rest); }
      ArrayRoundTrip(items, rest);
    case Object(members) =>
      if members != [] { MembersRoundTrip(members, rest); }
      ObjectRoundTrip(members, rest);
  }

  lemma LastItem(t: Text, v: Value, rest: Text)
    requires ParseValue(t) == Some((v, [RBRACKET] + rest))
    ensures ParseItems(t) == Some(([v], rest))
  {
    assert ([RBRACKET] + rest)[1..] == rest;
  }

  lemma AnotherItem(t: Text, v: Value, tail: Text, vs: seq<Value>, rest: Text)
    requires ParseValue(t) == Some((v, [COMMA] + tail))
    requires ParseItems(tail) == Some((vs, rest))
    ensures ParseItems(t) == Some(([v] + vs, rest))
  {
    assert ([COMMA] + tail)[1..] == tail;
  }

  lemma RenderStart(v: Value)
    requires Tokens(v)
    ensures Render(v) != [] && Render(v)[0] != RBRACKET
  {
  }

  lemma {:induction false} ItemsRoundTrip(items: seq<Value>, rest: Text)
    requires items != [] && forall i :: 0 <= i < |items| ==> Tokens(items[i])
    ensures ParseItems(RenderItems(items) + ([RBRACKET] + rest)) == Some((items, rest))
    ensures RenderItems(items) != [] && RenderItems(items)[0] != RBRACKET
    decreases items, 1
  {
    hide ParseValue, ParseItems, ParseMembers, Render, Tokens;
    var close := [RBRACKET] + rest;
    var v := items[0];
    RenderStart(v);
    if |items| == 1 {
      ValueRoundTrip(v, close);
      LastItem(RenderItems(items) + close, v, rest);
      assert items == [v];
    } else {
      var others := RenderItems(items[1..]);
      ValueRoundTrip(v, [COMMA] + (others + close));
      ItemsRoundTrip(items[1..], rest);
      assert RenderItems(items) + close == Render(v) + ([COMMA] + (others + close));
      AnotherItem(RenderItems(items) + close, v, others + close, items[1..], rest);
      HeadTail(items);
    }
  }

  /** The text of one member, as its parser sees it. */
  lemma MemberHead(key: Text, v: Value, after: Text) returns (t: Text)
    requires Tokens(v) && after != [] && EndsNumber(after)
    requires ParseValue(Render(v) + after) == Some((v, after))
    ensures t == Quote(key) + ([COLON] + (Render(v) + after))
    ensures t[0] == QUOTE && ParseBody(t[1..]) == Some((key, [COLON] + (Render(v) + after)))
    ensures after[0] == RBRACE ==> ParseMembers(t) == Some(([Keyed(key, Some(v))], after[1..]))
    ensures after[0] == COMMA && ParseMembers(after[1..]).Some? ==>
              ParseMembers(t) == Some(([Keyed(key, Some(v))] + ParseMembers(after[1..]).value.0,
                                       ParseMembers(after[1..]).value.1))
  {
    var follow := [COLON] + (Render(v) + after);
    t := Quote(key) + follow;
    BodyRoundTrip(key, follow);
    assert t[1..] == QuoteBody(key) + follow;
    assert follow[1..] == Render(v) + after;
  }

  lemma {:induction false} MembersRoundTrip(members: seq<Keyed<Option<Value>>>, rest: Text)
    requires members != []
    requires forall i :: 0 <= i < |members| ==> members[i].item.Some? && Tokens(members[i].item.value)
    ensures ParseMembers(JoinEntries(RenderMembers(members)) + ([RBRACE] + rest)) == Some((members, rest))
    ensures JoinEntries(RenderMembers(members)) != [] && JoinEntries(RenderMembers(members))[0] == QUOTE
    decreases members, 1
  {
    hide ParseValue, ParseMembers, ParseBody, Render, QuoteBody, Tokens;
    var key, v := members[0].key, members[0].item.value;
    var close := [RBRACE] + rest;
    var entries := RenderMembers(members);
    HeadTail(members);
    RenderMembersHead(members);
    if |members| == 1 {
      ValueRoundTrip(v, close);
      var t := MemberHead(key, v, close);
      assert t == JoinEntries(entries) + close;
      DropHead(RBRACE, rest);
      assert members == [Keyed(key, Some(v))];
    } else {
      MembersRoundTrip(members[1..], rest);
      var tail := JoinEntries(entries[1..]) + close;
      DropHead(COMMA, tail);
      ValueRoundTrip(v, [COMMA] + tail);
      var t := MemberHead(key, v, [COMMA] + tail);
      assert t == JoinEntries(entries) + close;
    }
  }

  lemma RenderMembersHead(members: seq<Keyed<Option<Value>>>)
    requires members != [] && members[0].item.Some?
    requires |members| > 1 ==> members[1].item.Some?
    ensures var entries := RenderMembers(members);
            && entries == [Keyed(members[0].key, Render(members[0].item.value))] + RenderMembers(members[1..])
            && entries[1..] == RenderMembers(members[1..])
            && (|members| == 1 <==> |entries| == 1)
  {
  }
}
