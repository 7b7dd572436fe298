/** Resumable reads: a cursor names the file, the place in it and the bytes before that place. */
module LogCursor {
  import opened Prelude
  import opened Utf8
  import opened LocalRead
  import opened LogFollow

  const ANCHOR_BYTES := 64

  /** A file as one read finds it: its size is measured first, its bytes are read later.
      The generation stands for device, inode and birth time. */
  datatype LogFile = LogFile(generation: nat, size: nat, bytes: seq<Byte>)

  /** An authenticated cursor; its anchor is what the digest of those bytes identifies. */
  datatype Cursor = Cursor(scope: nat, generation: nat, offset: nat, anchor: seq<Byte>)

  datatype Reply = Unavailable | Page(chunk: Chunk, reset: bool, cursor: Cursor)

  /** The bytes before a place, as far as the file reaches. */
  function Anchor(bytes: seq<Byte>, offset: nat): seq<Byte> {
    bytes[Min(offset - Min(offset, ANCHOR_BYTES), |bytes|)..Min(offset, |bytes|)]
  }

  /** The cursor no longer belongs to what the file holds. */
  predicate Outdated(file: LogFile, cursor: Cursor) {
    cursor.generation != file.generation || cursor.offset > file.size
      || cursor.anchor != Anchor(file.bytes, cursor.offset)
  }

  method ReadLog(file: LogFile, scope: nat, cursor: Option<Cursor>, maxBytes: nat) returns (reply: Reply)
    ensures reply == ReadLogAt(file, scope, cursor, maxBytes)
  {
    hide ReadSized, Anchor;
    if cursor.Some? && cursor.value.scope != scope { return Unavailable; }
    var reset := cursor.Some?
                 && (cursor.value.generation != file.generation
                     || cursor.value.offset > file.size
                     || cursor.value.anchor != Anchor(file.bytes, cursor.value.offset));
    var offset := if cursor.Some? && !reset then cursor.value.offset else 0;
    var chunk := ReadChunk(file.bytes, file.size, offset, maxBytes);
    if chunk.None? { return Unavailable; }
    var next := chunk.value.next;
    reply := Page(chunk.value, reset, Cursor(scope, file.generation, next, Anchor(file.bytes, next)));
  }

  function ReadLogAt(file: LogFile, scope: nat, cursor: Option<Cursor>, maxBytes: nat): Reply {
    if cursor.Some? && cursor.value.scope != scope then Unavailable
    else
      var reset := cursor.Some? && Outdated(file, cursor.value);
      var offset := if cursor.Some? && !reset then cursor.value.offset else 0;
      var read := ReadSized(file.bytes, file.size, offset, maxBytes);
      if read.None? then Unavailable
      else Page(read.value, reset, Cursor(scope, file.generation, read.value.next, Anchor(file.bytes, read.value.next)))
  }

  /** A later visit to the same file: only appended to, and measured no shorter than it was last read. */
  predicate Extends(f: LogFile, g: LogFile) {
    f.generation == g.generation && f.bytes <= g.bytes && |f.bytes| <= g.size
  }

  /** A cursor survives whatever is appended: the next read starts where the last one stopped. */
  lemma CursorSurvivesAppending(f: LogFile, g: LogFile, scope: nat, cursor: Option<Cursor>, maxBytes: nat)
    requires Extends(f, g) && ReadLogAt(f, scope, cursor, maxBytes).Page? && f.size <= |f.bytes|
    ensures var page := ReadLogAt(f, scope, cursor, maxBytes);
            var again := ReadLogAt(g, scope, Some(page.cursor), maxBytes);
            again.Page? ==> !again.reset && again.chunk.start == page.chunk.next
  {
    hide ReadSized;
    var page := ReadLogAt(f, scope, cursor, maxBytes);
    var offset := if cursor.Some? && !page.reset then cursor.value.offset else 0;
    ReadIsBounded(f.bytes, f.size, offset, maxBytes);
    assert Anchor(f.bytes, page.cursor.offset) == Anchor(g.bytes, page.cursor.offset);
    if ReadSized(g.bytes, g.size, page.cursor.offset, maxBytes).Some? {
      ReadIsBounded(g.bytes, g.size, page.cursor.offset, maxBytes);
    }
  }

  /** A cursor taken from one file resets on a visit to another exactly when that is not the same file, was cut below
      the place the cursor names, or changed in the sixty-four bytes before it; the read then starts at the head. In
      another scope it is refused. */
  lemma ResetDecided(f: LogFile, g: LogFile, scope: nat, other: nat, cursor: Option<Cursor>, maxBytes: nat)
    requires ReadLogAt(f, scope, cursor, maxBytes).Page?
    ensures var page := ReadLogAt(f, scope, cursor, maxBytes);
            var (again, at) := (ReadLogAt(g, scope, Some(page.cursor), maxBytes), page.chunk.next);
            && page.cursor.offset == at
            && (again.Page? && at <= |f.bytes| && at <= |g.bytes| ==>
                  && (again.reset <==>
                        || f.generation != g.generation || at > g.size
                        || exists i :: 0 <= i < at && at <= i + 64 && f.bytes[i] != g.bytes[i])
                  && again.chunk.start == if again.reset then 0 else at)
            && (other != scope ==> ReadLogAt(g, other, Some(page.cursor), maxBytes) == Unavailable)
  {
    hide ReadSized;
    var page := ReadLogAt(f, scope, cursor, maxBytes);
    var at := page.chunk.next;
    if ReadLogAt(g, scope, Some(page.cursor), maxBytes).Page? { ChunkStarts(g, scope, Some(page.cursor), maxBytes); }
    if at <= |f.bytes| && at <= |g.bytes| {
      var low := at - Min(at, ANCHOR_BYTES);
      var (a, b) := (f.bytes[low..at], g.bytes[low..at]);
      assert Anchor(f.bytes, at) == a && Anchor(g.bytes, at) == b;
      assert a != b <==> exists i :: low <= i < at && f.bytes[i] != g.bytes[i] by {
        if a != b {
          var k :| 0 <= k < |a| && a[k] != b[k];
          assert f.bytes[low + k] != g.bytes[low + k];
        }
        if i :| low <= i < at && f.bytes[i] != g.bytes[i] { assert a[i - low] != b[i - low]; }
      }
    }
  }

  lemma ChunkStarts(f: LogFile, scope: nat, cursor: Option<Cursor>, maxBytes: nat)
    requires ReadLogAt(f, scope, cursor, maxBytes).Page?
    ensures var page := ReadLogAt(f, scope, cursor, maxBytes);
            page.chunk.start == if cursor.Some? && !page.reset then cursor.value.offset else 0
  {
    hide Anchor, Buffer, Searched, Text;
  }

  /** What a reader sees that polls a file again and again with its last cursor. */
  function Polled(files: seq<LogFile>, scope: nat, cursor: Option<Cursor>, maxBytes: nat): (replies: seq<Reply>)
    ensures |replies| == |files|
  {
    if files == [] then []
    else
      var reply := ReadLogAt(files[0], scope, cursor, maxBytes);
      [reply] + Polled(files[1..], scope, if reply.Page? then Some(reply.cursor) else cursor, maxBytes)
  }

  ghost predicate Growing(files: seq<LogFile>) {
    && (forall k :: 0 <= k < |files| ==> files[k].size <= |files[k].bytes|)
    && (forall k :: 0 < k < |files| ==> Extends(files[k - 1], files[k]))
  }

  /** The cursor is one that an earlier content of this growing file gave out. */
  ghost predicate Issued(f: LogFile, scope: nat, cursor: Cursor) {
    && cursor.scope == scope && cursor.generation == f.generation && cursor.offset <= |f.bytes|
    && cursor.anchor == Anchor(f.bytes, cursor.offset)
  }

  /** Such a cursor, at a visit that measures no less than the place it names. */
  ghost predicate Usable(f: LogFile, scope: nat, cursor: Cursor) { Issued(f, scope, cursor) && cursor.offset <= f.size }

  function Place(cursor: Option<Cursor>): nat { if cursor.Some? then cursor.value.offset else 0 }

  /** Each page starts where the one before stopped, and shows the bytes between. */
  ghost predicate Continues(replies: seq<Reply>, files: seq<LogFile>, from: nat) {
    && |replies| == |files|
    && (forall k :: 0 <= k < |replies| ==> Shows(replies[k], files[k]))
    && (replies != [] ==> replies[0].chunk.start == from)
    && (forall k :: 0 <= k < |replies| - 1 ==> replies[k + 1].chunk.start == replies[k].chunk.next)
  }

  /** A page of this file, no reset, that moves on while there are bytes to show. */
  ghost predicate Shows(reply: Reply, f: LogFile) {
    && reply.Page? && !reply.reset
    && var chunk := reply.chunk;
    && chunk.start <= chunk.next <= |f.bytes| && (chunk.start < |f.bytes| ==> chunk.start < chunk.next)
    && chunk.text == Text(f.bytes[chunk.start..chunk.next], chunk.next < f.size)
  }

  lemma ContinuesOneMore(reply: Reply, further: seq<Reply>, f: LogFile, files: seq<LogFile>, from: nat)
    requires Shows(reply, f) && reply.chunk.start == from && Continues(further, files, reply.chunk.next)
    ensures Continues([reply] + further, [f] + files, from)
  {
    hide Shows;
    var replies := [reply] + further;
    forall k | 0 <= k < |replies| ensures Shows(replies[k], ([f] + files)[k]) {
      if k > 0 { assert Shows(further[k - 1], files[k - 1]); }
    }
    assert replies[0].Page? && forall k :: 0 <= k < |further| ==> further[k].Page? by {
      assert Shows(reply, f) ==> reply.Page? by { IsPage(reply, f); }
      forall k | 0 <= k < |further| ensures further[k].Page? { IsPage(further[k], files[k]); }
    }
    forall k | 0 <= k < |replies| - 1 ensures replies[k + 1].chunk.start == replies[k].chunk.next {
      assert replies[k + 1] == further[k];
      if k > 0 { assert replies[k] == further[k - 1]; }
    }
  }

  lemma IsPage(reply: Reply, f: LogFile)
    requires Shows(reply, f)
    ensures reply.Page? && !reply.reset
  {
  }

  /** A read with a cursor that was given out answers from that place on. */
  lemma IssuedReads(f: LogFile, scope: nat, cursor: Option<Cursor>, maxBytes: nat)
    requires maxBytes >= 12 && f.size <= |f.bytes| && (cursor.Some? ==> Usable(f, scope, cursor.value))
    ensures var reply := ReadLogAt(f, scope, cursor, maxBytes);
            && Shows(reply, f) && reply.chunk.start == Place(cursor) && reply.chunk.next == reply.cursor.offset
            && Issued(f, scope, reply.cursor)
  {
    hide ReadSized, Anchor, Text;
    var at := Place(cursor);
    if at < |f.bytes| {
      TwelveBytesAdvance(f.bytes, f.size, at, maxBytes);
    } else {
      EndIsRead(f.bytes, f.size, maxBytes);
    }
    ReadIsBounded(f.bytes, f.size, at, maxBytes);
  }

  /** Polling a growing log never resets, never repeats and never skips a byte, even where
      the log grows between being measured and being read. */
  lemma {:induction false} PollingGrowingLog(files: seq<LogFile>, scope: nat, cursor: Option<Cursor>, maxBytes: nat)
    requires Growing(files) && maxBytes >= 12
    requires files != [] && cursor.Some? ==> Usable(files[0], scope, cursor.value)
    ensures Continues(Polled(files, scope, cursor, maxBytes), files, Place(cursor))
  {
    if files != [] {
      hide ReadLogAt, Usable, Issued, Continues, Shows;
      IssuedReads(files[0], scope, cursor, maxBytes);
      var reply := ReadLogAt(files[0], scope, cursor, maxBytes);
      IsPage(reply, files[0]);
      if |files| > 1 {
        assert Extends(files[0], files[1]);
        StillIssued(files[0], files[1], scope, reply.cursor);
      }
      PollingGrowingLog(files[1..], scope, Some(reply.cursor), maxBytes);
      ContinuesOneMore(reply, Polled(files[1..], scope, Some(reply.cursor), maxBytes), files[0], files[1..],
                       Place(cursor));
      assert files == [files[0]] + files[1..];
    } else {
      assert Polled(files, scope, cursor, maxBytes) == [];
    }
  }

  lemma StillIssued(f: LogFile, g: LogFile, scope: nat, cursor: Cursor)
    requires Extends(f, g) && Issued(f, scope, cursor)
    ensures Usable(g, scope, cursor)
  {
    assert Anchor(f.bytes, cursor.offset) == Anchor(g.bytes, cursor.offset);
  }
}
