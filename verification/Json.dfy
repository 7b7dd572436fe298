/**
 The canonical JSON printer of the fleet control plane, over UTF-16 code units.
 It decides whether two results are the same result, so its injectivity is
 proved through an inverse parser.
 */
module Json {
  import opened Prelude

  type CodeUnit = c: int | 0 <= c < 0x1_0000
  type Text = seq<CodeUnit>

  datatype Keyed<+A> = Keyed(key: Text, item: A)

  /** A number is its shortest decimal token. A member holding None is a
      property whose value is undefined, in insertion order. */
  datatype Value =
    | Null
    | Bool(b: bool)
    | Number(token: Text)
    | String(s: Text)
    | Array(items: seq<Value>)
    | Object(members: seq<Keyed<Option<Value>>>)

  const QUOTE: CodeUnit := 0x22
  const COMMA: CodeUnit := 0x2C
  const COLON: CodeUnit := 0x3A
  const BACKSLASH: CodeUnit := 0x5C
  const LBRACKET: CodeUnit := 0x5B
  const RBRACKET: CodeUnit := 0x5D
  const LBRACE: CodeUnit := 0x7B
  const RBRACE: CodeUnit := 0x7D

  const NULL_WORD: Text := [0x6E, 0x75, 0x6C, 0x6C]
  const TRUE_WORD: Text := [0x74, 0x72, 0x75, 0x65]
  const FALSE_WORD: Text := [0x66, 0x61, 0x6C, 0x73, 0x65]

  // ----- key order and sorting -----

  predicate Less(a: Text, b: Text) {
    b != [] && (a == [] || a[0] < b[0] || (a[0] == b[0] && Less(a[1..], b[1..])))
  }

  function Insert<A>(x: Keyed<A>, xs: seq<Keyed<A>>): seq<Keyed<A>> {
    if xs == [] || !Less(xs[0].key, x.key) then [x] + xs
    else [xs[0]] + Insert(x, xs[1..])
  }

  function Sort<A>(xs: seq<Keyed<A>>): seq<Keyed<A>> {
    if xs == [] then [] else Insert(xs[0], Sort(xs[1..]))
  }

  // ----- string literals -----

  predicate HighSurrogate(c: CodeUnit) { 0xD800 <= c < 0xDC00 }
  predicate LowSurrogate(c: CodeUnit) { 0xDC00 <= c < 0xE000 }

  function HexDigit(d: int): CodeUnit
    requires 0 <= d < 16
  {
    if d < 10 then 0x30 + d else 0x61 + d - 10
  }

  function UnicodeEscape(c: CodeUnit): Text {
    [BACKSLASH, 0x75, HexDigit(c / 16 / 16 / 16), HexDigit(c / 16 / 16 % 16), HexDigit(c / 16 % 16), HexDigit(c % 16)]
  }

  function Escape(c: CodeUnit): Text {
    if c == QUOTE || c == BACKSLASH then [BACKSLASH, c]
    else if c == 0x08 then [BACKSLASH, 0x62]
    else if c == 0x09 then [BACKSLASH, 0x74]
    else if c == 0x0A then [BACKSLASH, 0x6E]
    else if c == 0x0C then [BACKSLASH, 0x66]
    else if c == 0x0D then [BACKSLASH, 0x72]
    else if c < 0x20 || HighSurrogate(c) || LowSurrogate(c) then UnicodeEscape(c)
    else [c]
  }

  /** Surrogate pairs are printed as they are, lone surrogates are escaped. */
  function QuoteBody(s: Text): Text {
    if s == [] then [QUOTE]
    else if |s| > 1 && HighSurrogate(s[0]) && LowSurrogate(s[1]) then s[..2] + QuoteBody(s[2..])
    else Escape(s[0]) + QuoteBody(s[1..])
  }

  function Quote(s: Text): Text { [QUOTE] + QuoteBody(s) }

  // ----- the printer -----

  function Print(v: Value): Text
    decreases v
  {
    match v
    case Null => NULL_WORD
    case Bool(b) => if b then TRUE_WORD else FALSE_WORD
    case Number(token) => token
    case String(s) => Quote(s)
    case Array(items) => [LBRACKET] + PrintItems(items) + [RBRACKET]
    case Object(members) => [LBRACE] + JoinEntries(Sort(PrintMembers(members))) + [RBRACE]
  }

  function PrintItems(items: seq<Value>): Text
    decreases items
  {
    if items == [] then []
    else if |items| == 1 then Print(items[0])
    else Print(items[0]) + [COMMA] + PrintItems(items[1..])
  }

  /** Drops undefined properties; the key decides the order, so printing the
      value before sorting changes nothing. */
  function PrintMembers(members: seq<Keyed<Option<Value>>>): seq<Keyed<Text>>
    decreases members
  {
    if members == [] then []
    else match members[0].item
      case None => PrintMembers(members[1..])
      case Some(v) => [Keyed(members[0].key, Print(v))] + PrintMembers(members[1..])
  }

  function JoinEntries(entries: seq<Keyed<Text>>): Text {
    if entries == [] then []
    else if |entries| == 1 then Quote(entries[0].key) + [COLON] + entries[0].item
    else Quote(entries[0].key) + [COLON] + entries[0].item + [COMMA] + JoinEntries(entries[1..])
  }

  // ----- what two equal results have in common -----

  predicate NumberUnit(c: CodeUnit) {
    0x30 <= c <= 0x39 || c == 0x2D || c == 0x2B || c == 0x2E || c == 0x45 || c == 0x65
  }

  predicate ValidToken(t: Text) {
    t != [] && (t[0] == 0x2D || 0x30 <= t[0] <= 0x39) && forall i :: 0 <= i < |t| ==> NumberUnit(t[i])
  }

  /** What a JSON value satisfies: printed numbers, distinct property names. */
  ghost predicate WellFormed(v: Value)
    decreases v
  {
    match v
    case Number(token) => ValidToken(token)
    case Array(items) => forall i :: 0 <= i < |items| ==> WellFormed(items[i])
    case Object(members) =>
      && (forall i, j :: 0 <= i < j < |members| ==> members[i].key != members[j].key)
      && (forall i :: 0 <= i < |members| && members[i].item.Some? ==> WellFormed(members[i].item.value))
    case _ => true
  }

  ghost predicate DefinedAt(members: seq<Keyed<Option<Value>>>, i: int, key: Text) {
    0 <= i < |members| && members[i].key == key && members[i].item.Some?
  }

  /** Equality up to the order of object properties, at every depth;
      a property holding undefined is no property. */
  ghost predicate Same(a: Value, b: Value)
    decreases a
  {
    match (a, b)
    case (Array(x), Array(y)) => |x| == |y| && forall i :: 0 <= i < |x| ==> Same(x[i], y[i])
    case (Object(x), Object(y)) =>
      && (forall i :: 0 <= i < |x| && x[i].item.Some? ==>
            exists j :: DefinedAt(y, j, x[i].key) && Same(x[i].item.value, y[j].item.value))
      && (forall j :: 0 <= j < |y| && y[j].item.Some? ==> exists i :: DefinedAt(x, i, y[j].key))
    case (Array(_), _) => false
    case (Object(_), _) => false
    case _ => a == b
  }

  // ----- normal form -----

  /** What parsing the printed text gives back. */
  function Normal(v: Value): Value
    decreases v
  {
    match v
    case Array(items) => Array(NormalItems(items))
    case Object(members) => Object(Sort(NormalMembers(members)))
    case _ => v
  }

  function NormalItems(items: seq<Value>): (r: seq<Value>)
    ensures |r| == |items|
    decreases items
  {
    if items == [] then [] else [Normal(items[0])] + NormalItems(items[1..])
  }

  function NormalMembers(members: seq<Keyed<Option<Value>>>): seq<Keyed<Option<Value>>>
    decreases members
  {
    if members == [] then []
    else match members[0].item
      case None => NormalMembers(members[1..])
      case Some(v) => [Keyed(members[0].key, Some(Normal(v)))] + NormalMembers(members[1..])
  }

  /** Prints members in the order given. */
  function Render(v: Value): Text
    decreases v
  {
    match v
    case Array(items) => [LBRACKET] + RenderItems(items) + [RBRACKET]
    case Object(members) => [LBRACE] + JoinEntries(RenderMembers(members)) + [RBRACE]
    case _ => Print(v)
  }

  function RenderItems(items: seq<Value>): Text
    decreases items
  {
    if items == [] then []
    else if |items| == 1 then Render(items[0])
    else Render(items[0]) + [COMMA] + RenderItems(items[1..])
  }

  function RenderMembers(members: seq<Keyed<Option<Value>>>): seq<Keyed<Text>>
    decreases members
  {
    if members == [] then []
    else match members[0].item
      case None => RenderMembers(members[1..])
      case Some(v) => [Keyed(members[0].key, Render(v))] + RenderMembers(members[1..])
  }

  ghost predicate AllDefined(members: seq<Keyed<Option<Value>>>) {
    forall i :: 0 <= i < |members| ==> members[i].item.Some?
  }

  lemma {:induction false} InsertRender(x: Keyed<Option<Value>>, xs: seq<Keyed<Option<Value>>>)
    requires x.item.Some? && AllDefined(xs)
    ensures RenderMembers(Insert(x, xs)) == Insert(Keyed(x.key, Render(x.item.value)), RenderMembers(xs))
    ensures AllDefined(Insert(x, xs))
  {
    var entry := Keyed(x.key, Render(x.item.value));
    if xs == [] || !Less(xs[0].key, x.key) {
      assert ([x] + xs)[1..] == xs;
    } else {
      InsertRender(x, xs[1..]);
      var tail := Insert(x, xs[1..]);
      assert ([xs[0]] + tail)[1..] == tail;
      assert RenderMembers(xs)[1..] == RenderMembers(xs[1..]);
    }
  }

  lemma {:induction false} SortRender(xs: seq<Keyed<Option<Value>>>)
    requires AllDefined(xs)
    ensures RenderMembers(Sort(xs)) == Sort(RenderMembers(xs))
    ensures AllDefined(Sort(xs))
  {
    if xs != [] {
      SortRender(xs[1..]);
      InsertRender(xs[0], Sort(xs[1..]));
      assert RenderMembers(xs)[1..] == RenderMembers(xs[1..]);
    }
  }

  lemma {:induction false} PrintIsRenderedNormal(v: Value)
    ensures Print(v) == Render(Normal(v))
    decreases v
  {
    match v
    case Array(items) => PrintItemsIsRendered(items);
    case Object(members) =>
      PrintMembersIsRendered(members);
      SortRender(NormalMembers(members));
    case _ =>
  }

  lemma {:induction false} PrintItemsIsRendered(items: seq<Value>)
    ensures PrintItems(items) == RenderItems(NormalItems(items))
    decreases items
  {
    if items != [] {
      PrintIsRenderedNormal(items[0]);
      PrintItemsIsRendered(items[1..]);
      assert NormalItems(items)[1..] == NormalItems(items[1..]);
    }
  }

  lemma {:induction false} PrintMembersIsRendered(members: seq<Keyed<Option<Value>>>)
    ensures PrintMembers(members) == RenderMembers(NormalMembers(members))
    ensures AllDefined(NormalMembers(members))
    decreases members
  {
    if members != [] {
      PrintMembersIsRendered(members[1..]);
      if members[0].item.Some? {
        PrintIsRenderedNormal(members[0].item.value);
        assert NormalMembers(members)[1..] == NormalMembers(members[1..]);
      }
    }
  }
}
