/** Following the cursors of a file that stands still. */
module LogFollow {
  import opened Prelude
  import opened Utf8
  import opened LocalRead

  // ----- one read, as a function -----

  function Fit(buffer: seq<Byte>, offset: nat, size: nat, maxBytes: nat, c: nat): (k: nat)
    requires c <= |buffer|
    ensures k <= c
  {
    if c == 0 || Fits(buffer, offset, size, maxBytes, c) then c else Fit(buffer, offset, size, maxBytes, c - 1)
  }

  lemma {:induction false} FitIsLargest(buffer: seq<Byte>, offset: nat, size: nat, maxBytes: nat, c: nat)
    requires c <= |buffer| && forall d :: c < d <= |buffer| ==> !Fits(buffer, offset, size, maxBytes, d)
    ensures LargestFit(buffer, offset, size, maxBytes, Fit(buffer, offset, size, maxBytes, c))
  {
    if c == 0 {
      assert buffer[..0] == [];
    } else if !Fits(buffer, offset, size, maxBytes, c) {
      FitIsLargest(buffer, offset, size, maxBytes, c - 1);
    }
  }

  function ReadAt(file: seq<Byte>, offset: nat, maxBytes: nat): Option<Chunk> {
    var buffer := Buffer(file, offset, maxBytes);
    var end := Taken(buffer, offset, |file|, Fit(buffer, offset, |file|, maxBytes, |buffer|));
    if buffer != [] && end == 0 then None
    else Some(Chunk(offset, Text(buffer[..end], offset + end < |file|), offset + end, offset + end >= |file|))
  }

  /** Of a file that was read as it was measured, the search finds the longest fit. */
  lemma AtRest(file: seq<Byte>, offset: nat, maxBytes: nat)
    ensures ReadSized(file, |file|, offset, maxBytes) == ReadAt(file, offset, maxBytes)
  {
    hide Fits, Text, Size;
    var buffer := Buffer(file, offset, maxBytes);
    FitIsLargest(buffer, offset, |file|, maxBytes, |buffer|);
    if offset <= |file| { SearchIsLargest(buffer, offset, |file|, maxBytes, 0, |buffer|); }
  }

  // ----- progress -----

  lemma FitsThrice(buffer: seq<Byte>, offset: nat, size: nat, maxBytes: nat, c: nat)
    requires c <= |buffer| && 3 * c <= maxBytes
    ensures Fits(buffer, offset, size, maxBytes, c)
  {
    TextSize(buffer[..c], offset + c < size);
  }

  lemma {:induction false} FitIsAbove(buffer: seq<Byte>, offset: nat, size: nat, maxBytes: nat, c: nat, d: nat)
    requires d <= c <= |buffer| && Fits(buffer, offset, size, maxBytes, d)
    ensures Fit(buffer, offset, size, maxBytes, c) >= d
  {
    if d < c && !Fits(buffer, offset, size, maxBytes, c) { FitIsAbove(buffer, offset, size, maxBytes, c - 1, d); }
  }

  /** Twelve bytes always move a reader on, whatever the file holds and however it grew since it was measured. */
  lemma TwelveBytesAdvance(content: seq<Byte>, size: nat, offset: nat, maxBytes: nat)
    requires offset <= size <= |content| && offset < |content| && maxBytes >= 12
    ensures var chunk := ReadSized(content, size, offset, maxBytes);
            chunk.Some? && chunk.value.start == offset < chunk.value.next <= |content|
  {
    hide Fits, Text;
    var buffer := Buffer(content, offset, maxBytes);
    var m := Min(4, |buffer|);
    forall d | 0 <= d <= m ensures Fits(buffer, offset, size, maxBytes, d) {
      FitsThrice(buffer, offset, size, maxBytes, d);
    }
    SearchReaches(buffer, offset, size, maxBytes, 0, |buffer|, m);
  }

  /** At the end of what was measured and read there is nothing to refuse. */
  lemma EndIsRead(content: seq<Byte>, size: nat, maxBytes: nat)
    ensures ReadSized(content, size, |content|, maxBytes) == Some(Chunk(|content|, [], |content|, |content| >= size))
  {
    NothingDecoded([], |content| < size);
  }

  /** Four bytes that no smaller limit gets past: every one of them decodes to a replacement. */
  const STUBBORN: seq<Byte> := [0xF0, 0x80, 0x80, 0xFF]

  lemma StubbornText(c: nat)
    requires c <= 4
    ensures Size(Text(STUBBORN[..c], c < 4)) == if c == 1 then 0 else 3 * c
  {
    hide Decode;
    DecodesNothing(true);
    assert STUBBORN[..0] == [] && STUBBORN[..1] == [0xF0] && STUBBORN[..2] == [0xF0, 0x80];
    assert STUBBORN[..3] == [0xF0, 0x80, 0x80] && STUBBORN[..4] == [0xF0, 0x80, 0x80, 0xFF];
    Replaced4();
  }

  predicate Begins(text: seq<Scalar>) { text != [] && text[0] == REPLACEMENT }

  lemma Replaces(bytes: seq<Byte>, stream: bool)
    requires bytes != [] && Scan(bytes) == Malformed(1)
    ensures Begins(Decode(bytes, stream))
    ensures Size(Decode(bytes, stream)) == 3 + Size(Decode(bytes[1..], stream))
  {
    assert Decode(bytes, stream)[1..] == Decode(bytes[1..], stream);
  }

  lemma Replaced4()
    ensures Size(Decode([0xF0, 0x80, 0x80, 0xFF], false)) == 12 && Begins(Decode([0xF0, 0x80, 0x80, 0xFF], false))
    ensures Size(Decode([0xF0, 0x80, 0x80], true)) == 9 && Begins(Decode([0xF0, 0x80, 0x80], true))
    ensures Size(Decode([0xF0, 0x80], true)) == 6 && Begins(Decode([0xF0, 0x80], true))
    ensures Decode([0xF0], true) == []
  {
    hide Decode, Begins, Size;
    Replaces([0xF0, 0x80, 0x80, 0xFF], false);
    assert [0xF0, 0x80, 0x80, 0xFF][1..] == [0x80, 0x80, 0xFF];
    Replaces([0x80, 0x80, 0xFF], false);
    assert [0x80, 0x80, 0xFF][1..] == [0x80, 0xFF];
    Replaces([0x80, 0xFF], false);
    assert [0x80, 0xFF][1..] == [0xFF];
    Replaces([0xFF], false);
    assert [0xFF][1..] == [];
    Replaces([0xF0, 0x80, 0x80], true);
    assert [0xF0, 0x80, 0x80][1..] == [0x80, 0x80];
    Replaces([0x80, 0x80], true);
    assert [0x80, 0x80][1..] == [0x80];
    Replaces([0x80], true);
    assert [0x80][1..] == [];
    Replaces([0xF0, 0x80], true);
    assert [0xF0, 0x80][1..] == [0x80];
    DecodesNothing(false);
    DecodesNothing(true);
    KeepsHalf();
  }

  lemma DecodesNothing(stream: bool)
    ensures Decode([], stream) == [] && Size(Decode([], stream)) == 0
  {
  }

  lemma KeepsHalf()
    ensures Decode([0xF0], true) == []
  {
  }

  lemma StubbornStops(maxBytes: nat)
    requires 1 <= maxBytes < 12
    ensures ReadAt(STUBBORN, 0, maxBytes) == None
  {
    var buffer := Buffer(STUBBORN, 0, maxBytes);
    assert buffer == STUBBORN[..Min(4, maxBytes)];
    forall c | 0 <= c <= |buffer| ensures Fits(buffer, 0, 4, maxBytes, c) <==> c == 1 || 3 * c <= maxBytes {
      assert buffer[..c] == STUBBORN[..c];
      StubbornText(c);
    }
    FitIsLargest(buffer, 0, 4, maxBytes, |buffer|);
    FitIsAbove(buffer, 0, 4, maxBytes, |buffer|, 1);
    var c := Fit(buffer, 0, 4, maxBytes, |buffer|);
    assert 1 <= c < 4 by { assert Fits(buffer, 0, 4, maxBytes, c); }
    assert LeadAt(buffer, c - 1) == 0;
  }

  ghost predicate AlwaysAdvances(maxBytes: nat) {
    forall file: seq<Byte>, offset: nat :: offset < |file| ==>
      ReadAt(file, offset, maxBytes).Some? && ReadAt(file, offset, maxBytes).value.next > offset
  }

  /** Every read of every file advances exactly when the reader asks for twelve bytes or more. */
  lemma ProgressNeedsTwelve(maxBytes: nat)
    requires 1 <= maxBytes
    ensures AlwaysAdvances(maxBytes) <==> maxBytes >= 12
  {
    if maxBytes >= 12 {
      forall file: seq<Byte>, offset: nat | offset < |file|
        ensures ReadAt(file, offset, maxBytes).Some? && ReadAt(file, offset, maxBytes).value.next > offset
      {
        AtRest(file, offset, maxBytes);
        TwelveBytesAdvance(file, |file|, offset, maxBytes);
      }
    } else {
      StubbornStops(maxBytes);
    }
  }

  // ----- following cursors to the end -----

  /** The chunks a reader sees from an offset until the end of the file, or until a read is refused. */
  function Follow(file: seq<Byte>, offset: nat, maxBytes: nat): seq<Chunk>
    requires offset <= |file| && maxBytes >= 1
    decreases |file| - offset
  {
    var read := ReadAt(file, offset, maxBytes);
    if read.None? then []
    else if read.value.eof then [read.value]
    else [read.value] + Follow(file, read.value.next, maxBytes)
  }

  /** The chunks lie end to end from the offset to the end of the file; each shows
      its own bytes, no more of them than allowed, and only the last is the end. */
  ghost predicate Tiles(chunks: seq<Chunk>, file: seq<Byte>, offset: nat, maxBytes: nat) {
    && chunks != [] && chunks[0].start == offset && chunks[|chunks| - 1].next == |file|
    && (forall k :: 0 <= k < |chunks| ==>
          && chunks[k].start <= chunks[k].next <= |file|
          && chunks[k].text == Text(file[chunks[k].start..chunks[k].next], k < |chunks| - 1)
          && Size(chunks[k].text) <= maxBytes
          && chunks[k].eof == (k == |chunks| - 1))
    && (forall k :: 0 <= k < |chunks| - 1 ==> chunks[k].next == chunks[k + 1].start && chunks[k].start < chunks[k].next)
  }

  lemma ReadShows(file: seq<Byte>, offset: nat, maxBytes: nat)
    requires offset <= |file| && maxBytes >= 1 && ReadAt(file, offset, maxBytes).Some?
    ensures var chunk := ReadAt(file, offset, maxBytes).value;
            && chunk.start == offset <= chunk.next <= |file| && chunk.eof == (chunk.next == |file|)
            && chunk.text == Text(file[offset..chunk.next], chunk.next < |file|)
            && Size(chunk.text) <= maxBytes && (offset < |file| ==> offset < chunk.next)
  {
    hide Text, Size;
    var buffer := Buffer(file, offset, maxBytes);
    FitIsLargest(buffer, offset, |file|, maxBytes, |buffer|);
    var c := Fit(buffer, offset, |file|, maxBytes, |buffer|);
    var end := Taken(buffer, offset, |file|, c);
    assert buffer[..end] == file[offset..offset + end];
    if end < c {
      assert buffer[..c][..end] == buffer[..end];
      StreamIsSmaller(buffer[..c], end, true);
    }
  }

  lemma TilesOneMore(chunk: Chunk, rest: seq<Chunk>, file: seq<Byte>, maxBytes: nat)
    requires chunk.start < chunk.next <= |file| && Tiles(rest, file, chunk.next, maxBytes)
    requires chunk.text == Text(file[chunk.start..chunk.next], true) && Size(chunk.text) <= maxBytes && !chunk.eof
    ensures Tiles([chunk] + rest, file, chunk.start, maxBytes)
  {
    hide Text, Size;
  }

  /** Whatever the bytes are, a reader that asks for twelve or more sees them all. */
  lemma {:induction false} FollowTiles(file: seq<Byte>, offset: nat, maxBytes: nat)
    requires offset <= |file| && maxBytes >= 12
    ensures Tiles(Follow(file, offset, maxBytes), file, offset, maxBytes)
    decreases |file| - offset
  {
    hide ReadAt, ReadSized, Text, Size;
    AtRest(file, offset, maxBytes);
    if offset < |file| {
      TwelveBytesAdvance(file, |file|, offset, maxBytes);
    } else {
      EndIsRead(file, |file|, maxBytes);
    }
    ReadShows(file, offset, maxBytes);
    var chunk := ReadAt(file, offset, maxBytes).value;
    if !chunk.eof {
      FollowTiles(file, chunk.next, maxBytes);
      TilesOneMore(chunk, Follow(file, chunk.next, maxBytes), file, maxBytes);
    }
  }

  // ----- well-formed files -----

  /** A lead found behind a prefix is the same lead. */
  lemma {:induction false} LeadShifts(prefix: seq<Byte>, rest: seq<Byte>, k: nat)
    requires k < |rest| && !Continuation(rest[0])
    ensures LeadAt(prefix + rest, |prefix| + k) == |prefix| + LeadAt(rest, k)
  {
    if Continuation(rest[k]) { LeadShifts(prefix, rest, k - 1); }
  }

  lemma RollsBackOne(c: Scalar, n: nat)
    requires n <= Width(c)
    ensures RolledBack(EncodeOne(c)[..n], n) == if n == Width(c) then n else 0
  {
    hide EncodeOne;
    EncodedShape(c);
    var bytes := EncodeOne(c)[..n];
    if n > 0 { assert LeadAt(bytes, n - 1) == 0; }
  }

  lemma RollsBackAfter(prefix: seq<Byte>, rest: seq<Byte>)
    requires rest != [] && !Continuation(rest[0])
    ensures RolledBack(prefix + rest, |prefix + rest|) == |prefix| + RolledBack(rest, |rest|)
  {
    LeadShifts(prefix, rest, |rest| - 1);
  }

  /** Rolling back gives the end of the last code point the first n bytes complete. */
  lemma {:induction false} RollsBackToWhole(text: seq<Scalar>, n: nat)
    requires n <= |Encode(text)|
    ensures RolledBack(Encode(text)[..n], n) == Size(text[..Whole(text, n)])
  {
    hide EncodeOne, RolledBack, LeadAt, Announced;
    if n == 0 {
      assert Encode(text)[..0] == [];
      RollsBackNothing();
    } else {
      var (one, w, others) := (EncodeOne(text[0]), Width(text[0]), Encode(text[1..]));
      RollsBackOne(text[0], Min(n, w));
      if n <= w {
        assert Encode(text)[..n] == one[..n];
        assert n == w ==> text[..1] == [text[0]];
        NoneInNothing(text[1..]);
      } else {
        RollsBackToWhole(text[1..], n - w);
        EncodedShape(text[1]);
        assert others[0] == EncodeOne(text[1])[0];
        assert Encode(text)[..n] == one + others[..n - w];
        RollsBackAfter(one, others[..n - w]);
        var k := Whole(text[1..], n - w);
        assert text[..1 + k] == [text[0]] + text[1..][..k];
      }
    }
  }

  lemma RollsBackNothing()
    ensures RolledBack([], 0) == 0
  {
  }

  lemma NoneInNothing(text: seq<Scalar>)
    ensures Whole(text, 0) == 0
  {
  }

  lemma {:induction false} WholeOfAll(text: seq<Scalar>)
    ensures Whole(text, Size(text)) == |text|
  {
    if text != [] { WholeOfAll(text[1..]); }
  }

  lemma {:induction false} EverythingFits(text: seq<Scalar>, c: nat)
    requires c <= |Encode(text)|
    ensures Size(text[..Whole(text, c)]) <= c
  {
    if Whole(text, c) > 0 {
      EverythingFits(text[1..], c - Width(text[0]));
      assert text[..Whole(text, c)][1..] == text[1..][..Whole(text[1..], c - Width(text[0]))];
    }
  }

  lemma StripShrinks(text: seq<Scalar>)
    ensures Size(StripMark(text)) <= Size(text)
  {
  }

  /** How many code points of the rest one read takes. */
  function Piece(rest: seq<Scalar>, maxBytes: nat): (k: nat)
    ensures k <= |rest|
  {
    Whole(rest, Min(Size(rest), Min(maxBytes, LOG_CHUNK_BYTES)))
  }

  /** What a read of whole buffers takes when every byte of the buffer fits. */
  lemma ReadOfAll(file: seq<Byte>, offset: nat, maxBytes: nat, end: nat)
    requires var buffer := Buffer(file, offset, maxBytes);
             Fits(buffer, offset, |file|, maxBytes, |buffer|) && end == Taken(buffer, offset, |file|, |buffer|)
             && (end > 0 || buffer == [])
    ensures ReadAt(file, offset, maxBytes)
            == Some(Chunk(offset, Text(Buffer(file, offset, maxBytes)[..end], offset + end < |file|), offset + end,
                          offset + end >= |file|))
  {
  }

  lemma BufferOfText(before: seq<Scalar>, rest: seq<Scalar>, maxBytes: nat)
    ensures |Encode(before + rest)| == Size(before) + Size(rest)
    ensures Buffer(Encode(before + rest), Size(before), maxBytes)
            == Encode(rest)[..Min(Size(rest), Min(maxBytes, LOG_CHUNK_BYTES))]
  {
    hide Encode;
    EncodeOfSum(before, rest);
    SizeOfSum(before, rest);
  }

  /** A streaming buffer of well-formed text always fits, and rolling back leaves its whole code points. */
  lemma BufferFits(rest: seq<Scalar>, n: nat)
    requires n <= Size(rest)
    ensures var k := Whole(rest, n);
            && Size(Text(Encode(rest)[..n], true)) <= n
            && RolledBack(Encode(rest)[..n], n) == Size(rest[..k]) <= n
            && Text(Encode(rest)[..n][..Size(rest[..k])], true) == StripMark(rest[..k])
            && (n == Size(rest) ==>
                k == |rest| && Text(Encode(rest)[..n], false) == StripMark(rest)
                  && Size(Text(Encode(rest)[..n], false)) <= n)
            && (n < Size(rest) ==> k < |rest|)
  {
    hide Encode, Decode, RolledBack, StripMark, Size;
    var k := Whole(rest, n);
    DecodeEncoded(rest, n);
    RollsBackToWhole(rest, n);
    EverythingFits(rest, n);
    StripShrinks(rest[..k]);
    EncodedPrefix(rest, k);
    RoundTrip(rest[..k], true);
    assert Encode(rest)[..n][..Size(rest[..k])] == Encode(rest[..k]);
    PieceIsProper(rest, k);
    if n == Size(rest) {
      WholeOfAll(rest);
      assert Encode(rest)[..n] == Encode(rest) && rest[..k] == rest;
      RoundTrip(rest, false);
    }
  }

  /** A read at a boundary takes whole code points, as many as the buffer completes. */
  lemma ReadOfText(before: seq<Scalar>, rest: seq<Scalar>, maxBytes: nat)
    requires maxBytes >= 4
    ensures var (file, k) := (Encode(before + rest), Piece(rest, maxBytes));
            && (rest != [] ==> k > 0)
            && ReadAt(file, Size(before), maxBytes)
               == Some(Chunk(Size(before), StripMark(rest[..k]), Size(before + rest[..k]), k == |rest|))
  {
    hide Text, Encode, RolledBack, StripMark, Size, Whole, Buffer, ReadAt;
    var file := Encode(before + rest);
    BufferOfText(before, rest, maxBytes);
    var n := Min(Size(rest), Min(maxBytes, LOG_CHUNK_BYTES));
    var buffer := Encode(rest)[..n];
    var k := Whole(rest, n);
    BufferFits(rest, n);
    SizeOfSum(before, rest[..k]);
    assert buffer[..n] == buffer && buffer == Buffer(file, Size(before), maxBytes);
    SizeOfNothing();
    if n == Size(rest) {
      assert rest[..k] == rest;
      ReadOfAll(file, Size(before), maxBytes, n);
      if rest != [] { SomeSize(rest); }
    } else {
      SomeWhole(rest, n);
      ReadOfAll(file, Size(before), maxBytes, Size(rest[..k]));
    }
  }

  lemma SomeSize(text: seq<Scalar>)
    requires text != []
    ensures Size(text) > 0
  {
  }

  lemma SomeWhole(rest: seq<Scalar>, n: nat)
    requires n >= 4 && n < Size(rest)
    ensures Whole(rest, n) > 0 && Size(rest[..Whole(rest, n)]) > 0
  {
  }

  lemma EncodedPrefix(text: seq<Scalar>, k: nat)
    requires k <= |text|
    ensures Size(text[..k]) <= |Encode(text)| && Encode(text)[..Size(text[..k])] == Encode(text[..k])
  {
    assert text == text[..k] + text[k..];
    EncodeOfSum(text[..k], text[k..]);
  }

  lemma PieceIsProper(rest: seq<Scalar>, k: nat)
    requires k <= |rest|
    ensures Size(rest[..k]) < Size(rest) ==> k < |rest|
  {
    assert k == |rest| ==> rest[..k] == rest;
  }

  /** The code points each chunk stands for: the text cut where the buffers end. */
  function Pieces(rest: seq<Scalar>, maxBytes: nat): seq<seq<Scalar>>
    decreases |rest|
  {
    var k := Piece(rest, maxBytes);
    if k == 0 || k == |rest| then [rest] else [rest[..k]] + Pieces(rest[k..], maxBytes)
  }

  function Joined(pieces: seq<seq<Scalar>>): seq<Scalar> {
    if pieces == [] then [] else pieces[0] + Joined(pieces[1..])
  }

  lemma {:induction false} PiecesJoin(rest: seq<Scalar>, maxBytes: nat)
    ensures Joined(Pieces(rest, maxBytes)) == rest && Pieces(rest, maxBytes) != []
    decreases |rest|
  {
    var k := Piece(rest, maxBytes);
    if k == 0 || k == |rest| {
      assert Joined([rest]) == rest + Joined([]);
    } else {
      PiecesJoin(rest[k..], maxBytes);
      assert Pieces(rest, maxBytes)[1..] == Pieces(rest[k..], maxBytes);
      assert rest == rest[..k] + rest[k..];
    }
  }

  function Texts(chunks: seq<Chunk>): seq<seq<Scalar>> { seq(|chunks|, i requires 0 <= i < |chunks| => chunks[i].text) }

  function Stripped(pieces: seq<seq<Scalar>>): seq<seq<Scalar>> {
    seq(|pieces|, i requires 0 <= i < |pieces| => StripMark(pieces[i]))
  }

  /** Each chunk begins and ends at a code point boundary of the file. */
  ghost predicate AtBoundaries(chunks: seq<Chunk>, text: seq<Scalar>) {
    forall k :: 0 <= k < |chunks| ==>
      exists i, j :: 0 <= i <= j <= |text| && chunks[k].start == Size(text[..i]) && chunks[k].next == Size(text[..j])
  }

  /** From any boundary on, the chunks show the pieces of the rest, each without a leading byte order mark. */
  lemma {:induction false} FollowText(before: seq<Scalar>, rest: seq<Scalar>, maxBytes: nat)
    requires maxBytes >= 4
    ensures Size(before) <= |Encode(before + rest)|
    ensures var chunks := Follow(Encode(before + rest), Size(before), maxBytes);
            && Texts(chunks) == Stripped(Pieces(rest, maxBytes))
            && AtBoundaries(chunks, before + rest)
    decreases |rest|
  {
    hide ReadAt, Encode, Size, Piece;
    SizeOfSum(before, rest);
    ReadOfText(before, rest, maxBytes);
    var (file, k) := (Encode(before + rest), Piece(rest, maxBytes));
    var chunk := ReadAt(file, Size(before), maxBytes).value;
    assert before + rest[..k] == (before + rest)[..|before| + k] && before == (before + rest)[..|before|];
    var chunks := Follow(file, Size(before), maxBytes);
    if k == |rest| {
      assert rest[..k] == rest;
      assert chunks == [chunk] && Texts(chunks) == [StripMark(rest)] && Pieces(rest, maxBytes) == [rest];
    } else {
      SizeOfPrefix(before + rest[..k], before + rest);
      var further := Follow(file, chunk.next, maxBytes);
      assert (before + rest[..k]) + rest[k..] == before + rest;
      FollowText(before + rest[..k], rest[k..], maxBytes);
      assert chunks == [chunk] + further;
      assert Texts(chunks) == [chunk.text] + Texts(further);
      assert Stripped(Pieces(rest, maxBytes)) == [StripMark(rest[..k])] + Stripped(Pieces(rest[k..], maxBytes));
      assert AtBoundaries([chunk] + further, before + rest) by {
        BoundaryFirst(chunk, further, before + rest, |before|, |before| + k);
      }
    }
  }

  lemma BoundaryFirst(chunk: Chunk, further: seq<Chunk>, text: seq<Scalar>, i: nat, j: nat)
    requires AtBoundaries(further, text) && i <= j <= |text|
    requires chunk.start == Size(text[..i]) && chunk.next == Size(text[..j])
    ensures AtBoundaries([chunk] + further, text)
  {
    hide Size;
    var chunks := [chunk] + further;
    forall k | 0 <= k < |chunks|
      ensures exists i, j ::
              0 <= i <= j <= |text| && chunks[k].start == Size(text[..i]) && chunks[k].next == Size(text[..j])
    {
      if k > 0 { assert chunks[k] == further[k - 1]; }
    }
  }

  predicate Marked(piece: seq<Scalar>) { piece != [] && piece[0] == BYTE_ORDER_MARK }

  function MarkedCount(pieces: seq<seq<Scalar>>): nat {
    if pieces == [] then 0 else (if Marked(pieces[0]) then 1 else 0) + MarkedCount(pieces[1..])
  }

  lemma {:induction false} StrippedLength(pieces: seq<seq<Scalar>>)
    ensures |Joined(Stripped(pieces))| + MarkedCount(pieces) == |Joined(pieces)|
    ensures MarkedCount(pieces) == 0 ==> Joined(Stripped(pieces)) == Joined(pieces)
    ensures MarkedCount(pieces) == 0 <==> forall k :: 0 <= k < |pieces| ==> !Marked(pieces[k])
  {
    if pieces != [] {
      StrippedLength(pieces[1..]);
      assert Stripped(pieces) == [StripMark(pieces[0])] + Stripped(pieces[1..]);
      assert forall k :: 1 <= k < |pieces| ==> pieces[k] == pieces[1..][k - 1];
    }
  }

  /** Dropping a mark from every piece is dropping it from the whole when only the first may have one. */
  lemma StrippedWhole(pieces: seq<seq<Scalar>>)
    requires pieces != [] && (Joined(pieces) != [] ==> pieces[0] != [])
    ensures Joined(Stripped(pieces)) == StripMark(Joined(pieces))
            <==> forall k :: 1 <= k < |pieces| ==> !Marked(pieces[k])
  {
    hide Joined, Stripped, StripMark, Marked, MarkedCount;
    var (first, later) := (pieces[0], pieces[1..]);
    StrippedLength(later);
    SplitFirst(pieces);
    StripsHead(first, Joined(Stripped(later)), Joined(later), MarkedCount(later));
    if MarkedCount(later) == 0 {
      forall k | 1 <= k < |pieces| ensures !Marked(pieces[k]) { assert pieces[k] == later[k - 1]; }
    } else {
      var k :| 0 <= k < |later| && Marked(later[k]);
      assert Marked(pieces[k + 1]);
    }
  }

  lemma SplitFirst(pieces: seq<seq<Scalar>>)
    requires pieces != []
    ensures Joined(pieces) == pieces[0] + Joined(pieces[1..])
    ensures Joined(Stripped(pieces)) == StripMark(pieces[0]) + Joined(Stripped(pieces[1..]))
  {
    hide StripMark;
    assert Stripped(pieces) == [StripMark(pieces[0])] + Stripped(pieces[1..]);
  }

  lemma StripsHead(first: seq<Scalar>, x: seq<Scalar>, y: seq<Scalar>, count: nat)
    requires |x| + count == |y| && (count == 0 ==> x == y) && (first + y != [] ==> first != [])
    ensures StripMark(first) + x == StripMark(first + y) <==> count == 0
  {
    assert StripMark(first + y) == StripMark(first) + y;
    assert |StripMark(first) + x| == |StripMark(first)| + |x|;
  }

  /** The texts of all chunks of a well-formed file, one after the other, are the
      decoding of the whole file exactly when no later chunk happens to begin at a
      byte order mark, which the decoder of that chunk would drop. */
  lemma ChunkedEqualsWhole(text: seq<Scalar>, maxBytes: nat)
    requires maxBytes >= 4
    ensures var chunks := Follow(Encode(text), 0, maxBytes);
            && AtBoundaries(chunks, text)
            && (Joined(Texts(chunks)) == Text(Encode(text), false)
                <==> forall k :: 1 <= k < |Pieces(text, maxBytes)| ==> !Marked(Pieces(text, maxBytes)[k]))
  {
    hide Follow, Encode, Size, Joined, Stripped, Pieces, StripMark, Marked;
    SizeOfNothing();
    assert [] + text == text;
    FollowText([], text, maxBytes);
    RoundTrip(text, false);
    PiecesJoin(text, maxBytes);
    FirstPiece(text, maxBytes);
    StrippedWhole(Pieces(text, maxBytes));
  }

  lemma SizeOfNothing()
    ensures Size([]) == 0
  {
  }

  lemma FirstPiece(text: seq<Scalar>, maxBytes: nat)
    requires maxBytes >= 4
    ensures Pieces(text, maxBytes) != []
    ensures text != [] ==> Pieces(text, maxBytes)[0] != [] && Pieces(text, maxBytes)[0][0] == text[0]
  {
    ReadOfText([], text, maxBytes);
  }

  /** Without a byte order mark past its head, a file reads the same in chunks as whole. */
  lemma ChunkedEqualsWholeUnmarked(text: seq<Scalar>, maxBytes: nat)
    requires maxBytes >= 4 && forall i :: 1 <= i < |text| ==> text[i] != BYTE_ORDER_MARK
    ensures Joined(Texts(Follow(Encode(text), 0, maxBytes))) == Text(Encode(text), false)
  {
    ChunkedEqualsWhole(text, maxBytes);
    UnmarkedPieces(text, maxBytes);
  }

  lemma {:induction false} UnmarkedPieces(text: seq<Scalar>, maxBytes: nat)
    requires forall i :: 1 <= i < |text| ==> text[i] != BYTE_ORDER_MARK
    ensures forall k :: 1 <= k < |Pieces(text, maxBytes)| ==> !Marked(Pieces(text, maxBytes)[k])
    decreases |text|
  {
    var k := Piece(text, maxBytes);
    if 0 < k < |text| {
      UnmarkedPieces(text[k..], maxBytes);
      FirstOfPieces(text[k..], maxBytes);
      var pieces := Pieces(text, maxBytes);
      assert forall j :: 1 <= j < |pieces| ==> pieces[j] == Pieces(text[k..], maxBytes)[j - 1];
    }
  }

  lemma FirstOfPieces(text: seq<Scalar>, maxBytes: nat)
    ensures Marked(Pieces(text, maxBytes)[0]) ==> text != [] && text[0] == BYTE_ORDER_MARK
  {
  }

  /** A file whose second chunk begins at a byte order mark loses it. */
  lemma AMarkIsLost()
    ensures var text: seq<Scalar> := [0x61, 0x62, 0x63, 0x64, BYTE_ORDER_MARK];
            Joined(Texts(Follow(Encode(text), 0, 4))) != Text(Encode(text), false)
  {
    var tail: seq<Scalar> := [BYTE_ORDER_MARK];
    var text: seq<Scalar> := [0x61, 0x62, 0x63, 0x64, BYTE_ORDER_MARK];
    ChunkedEqualsWhole(text, 4);
    FourPlain([0x61, 0x62, 0x63, 0x64], tail);
    assert text == [0x61, 0x62, 0x63, 0x64] + tail && text[4..] == tail;
    FirstPiece(tail, 4);
    assert Pieces(text, 4)[1] == Pieces(tail, 4)[0];
  }

  lemma FourPlain(plain: seq<Scalar>, tail: seq<Scalar>)
    requires |plain| == 4 && (forall i :: 0 <= i < 4 ==> plain[i] < 0x80) && tail != []
    ensures Piece(plain + tail, 4) == 4
  {
    var (a, b, c, d) := (plain[0], plain[1], plain[2], plain[3]);
    SizeOfSum(plain, tail);
    assert Size(plain) == 1 + Size(plain[1..]) && Size(plain[1..]) == 1 + Size(plain[1..][1..]);
    assert plain[1..][1..] == [c, d] && [c, d][1..] == [d] && [d][1..] == [];
    assert plain + tail == [a] + ([b] + ([c] + ([d] + tail)));
    NoneInNothing(tail);
    WholeOneMore(d, tail, 1);
    WholeOneMore(c, [d] + tail, 2);
    WholeOneMore(b, [c] + ([d] + tail), 3);
    WholeOneMore(a, [b] + ([c] + ([d] + tail)), 4);
  }

  lemma WholeOneMore(c: Scalar, rest: seq<Scalar>, n: nat)
    requires c < 0x80 && n > 0
    ensures Whole([c] + rest, n) == 1 + Whole(rest, n - 1)
  {
    assert ([c] + rest)[1..] == rest;
  }
}
