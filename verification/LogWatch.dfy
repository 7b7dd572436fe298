/** A browser that follows a growing log: its model and the host's reads, joined by the cursor between them. */
module LogWatch {
  import opened Prelude
  import opened Utf8
  import opened LocalRead
  import F = LogFollow
  import opened LogCursor
  import R = RunLog

  /** How cursors travel: written on a page and read back with the next request. */
  ghost predicate Travels(written: Cursor -> nat, readBack: nat -> Cursor) {
    forall c: Cursor :: readBack(written(c)) == c
  }

  function Asked(cursor: Option<nat>, readBack: nat -> Cursor): Option<Cursor> {
    if cursor.None? then None else Some(readBack(cursor.value))
  }

  function Answer(reply: Reply, written: Cursor -> nat): R.Result {
    if reply.Page? then R.Completed(reply.chunk.text, reply.reset, written(reply.cursor), 0)
    else R.Failed(R.Phase.Unavailable)
  }

  /** The events of one visit after the other: a read begins with the cursor the model names, and is answered from
      the file as it then is. */
  function Visits(
    events: seq<R.Event>, files: seq<LogFile>, scope: nat, written: Cursor -> nat, readBack: nat -> Cursor,
                  maxBytes: nat): seq<R.Event>
    decreases |files|
  {
    if files == [] then events
    else Visits(Visit(events, files[0], scope, written, readBack, maxBytes), files[1..], scope, written, readBack,
                maxBytes)
  }

  function Visit(events: seq<R.Event>, file: LogFile, scope: nat, written: Cursor -> nat, readBack: nat -> Cursor,
                 maxBytes: nat): seq<R.Event> {
    var asked := Asked(R.Run(events).0.cursor, readBack);
    var begun := events + [R.Event.Begin];
    begun + [R.Event.Receive(R.Run(begun).0.revision,
                             Answer(ReadLogAt(file, scope, asked, maxBytes), written), false)]
  }

  function Texts(replies: seq<Reply>): seq<seq<Scalar>> {
    seq(|replies|, i requires 0 <= i < |replies| => if replies[i].Page? then replies[i].chunk.text else [])
  }

  /** Where the reader is: what it holds, what the model would ask with, and that it may ask. */
  ghost predicate At(events: seq<R.Event>, gathered: seq<Scalar>, cursor: Option<Cursor>, readBack: nat -> Cursor) {
    && R.MayBegin(R.Run(events).0) && R.Run(events).1 == gathered
    && Asked(R.Run(events).0.cursor, readBack) == cursor
  }

  lemma RunOneMore(events: seq<R.Event>, e: R.Event)
    ensures var (m, gathered) := R.Run(events);
            R.Run(events + [e]) == (R.Apply(m, e), R.Gathered(m, gathered, e))
  {
    assert (events + [e])[..|events|] == events;
  }

  /** One page that does not reset is added to what the reader holds, and its cursor is the next one asked with. */
  lemma OneVisit(events: seq<R.Event>, file: LogFile, scope: nat, cursor: Option<Cursor>, written: Cursor -> nat,
                 readBack: nat -> Cursor, maxBytes: nat)
    requires Travels(written, readBack) && At(events, R.Run(events).1, cursor, readBack)
    requires var reply := ReadLogAt(file, scope, cursor, maxBytes); reply.Page? && !reply.reset
    ensures var reply := ReadLogAt(file, scope, cursor, maxBytes);
            At(Visit(events, file, scope, written, readBack, maxBytes), R.Run(events).1 + reply.chunk.text,
               Some(reply.cursor), readBack)
  {
    hide ReadLogAt, R.Suffix, R.Run;
    var reply := ReadLogAt(file, scope, cursor, maxBytes);
    var begun := events + [R.Event.Begin];
    RunOneMore(events, R.Event.Begin);
    RunOneMore(begun, R.Event.Receive(R.Run(begun).0.revision, Answer(reply, written), false));
    assert readBack(written(reply.cursor)) == reply.cursor;
  }

  /** The reader followed these files: it holds what the polls showed and asks next with the last page's cursor. */
  ghost predicate Followed(before: seq<Scalar>, cursor: Option<Cursor>, replies: seq<Reply>, after: seq<R.Event>,
                           readBack: nat -> Cursor) {
    && (forall k :: 0 <= k < |replies| ==> replies[k].Page?)
    && At(after, before + F.Joined(Texts(replies)),
          if replies == [] then cursor else Some(replies[|replies| - 1].cursor), readBack)
  }

  lemma FollowedNothing(events: seq<R.Event>, cursor: Option<Cursor>, readBack: nat -> Cursor)
    requires At(events, R.Run(events).1, cursor, readBack)
    ensures Followed(R.Run(events).1, cursor, [], events, readBack)
  {
    assert Texts([]) == [];
    assert R.Run(events).1 + F.Joined(Texts([])) == R.Run(events).1;
  }

  lemma FollowedOneMore(before: seq<Scalar>, cursor: Option<Cursor>, reply: Reply, further: seq<Reply>,
                        after: seq<R.Event>, readBack: nat -> Cursor)
    requires reply.Page? && Followed(before + reply.chunk.text, Some(reply.cursor), further, after, readBack)
    ensures Followed(before, cursor, [reply] + further, after, readBack)
  {
    hide At;
    assert Texts([reply] + further) == [reply.chunk.text] + Texts(further);
    assert before + reply.chunk.text + F.Joined(Texts(further)) == before + F.Joined(Texts([reply] + further));
  }

  /** What the reader gathers from a growing log is what polling with the last cursor shows: nothing
      resets, and every read asks with the cursor of the page before it. */
  lemma {:induction false} GathersWhatIsPolled(events: seq<R.Event>, files: seq<LogFile>, scope: nat,
                                               cursor: Option<Cursor>, written: Cursor -> nat,
                                               readBack: nat -> Cursor, maxBytes: nat)
    requires Travels(written, readBack) && Growing(files) && maxBytes >= 12
    requires files != [] && cursor.Some? ==> Usable(files[0], scope, cursor.value)
    requires At(events, R.Run(events).1, cursor, readBack)
    ensures Followed(R.Run(events).1, cursor, Polled(files, scope, cursor, maxBytes),
                     Visits(events, files, scope, written, readBack, maxBytes), readBack)
    ensures Continues(Polled(files, scope, cursor, maxBytes), files, Place(cursor))
    decreases |files|
  {
    hide ReadLogAt, Usable, Issued, Shows, At, Visit, Followed, Continues, R.Run;
    PollingGrowingLog(files, scope, cursor, maxBytes);
    if files == [] {
      FollowedNothing(events, cursor, readBack);
    } else {
      var reply := ReadLogAt(files[0], scope, cursor, maxBytes);
      IssuedReads(files[0], scope, cursor, maxBytes);
      IsPage(reply, files[0]);
      OneVisit(events, files[0], scope, cursor, written, readBack, maxBytes);
      var next := Visit(events, files[0], scope, written, readBack, maxBytes);
      Holds(next, R.Run(events).1 + reply.chunk.text, Some(reply.cursor), readBack);
      if |files| > 1 { StillIssued(files[0], files[1], scope, reply.cursor); }
      GathersWhatIsPolled(next, files[1..], scope, Some(reply.cursor), written, readBack, maxBytes);
      FollowedOneMore(R.Run(events).1, cursor, reply, Polled(files[1..], scope, Some(reply.cursor), maxBytes),
                      Visits(events, files, scope, written, readBack, maxBytes), readBack);
    }
  }

  lemma Holds(events: seq<R.Event>, gathered: seq<Scalar>, cursor: Option<Cursor>, readBack: nat -> Cursor)
    requires At(events, gathered, cursor, readBack)
    ensures R.Run(events).1 == gathered
  {
  }

  // ----- visits to text -----

  /** The same file at rest, holding this text. */
  function Holding(generation: nat, text: seq<Scalar>): LogFile { LogFile(generation, Size(text), Encode(text)) }

  function Files(generation: nat, texts: seq<seq<Scalar>>): seq<LogFile> {
    seq(|texts|, i requires 0 <= i < |texts| => Holding(generation, texts[i]))
  }

  ghost predicate Lengthening(texts: seq<seq<Scalar>>) { forall k :: 0 < k < |texts| ==> texts[k - 1] <= texts[k] }

  /** What each visit takes of the text, from the code point where the visit before stopped. */
  function Taken(texts: seq<seq<Scalar>>, done: nat, maxBytes: nat): seq<seq<Scalar>> {
    if texts == [] || done > |texts[0]| then []
    else
      var piece := texts[0][done..][..F.Piece(texts[0][done..], maxBytes)];
      [piece] + Taken(texts[1..], done + |piece|, maxBytes)
  }

  lemma FilesGrow(generation: nat, texts: seq<seq<Scalar>>)
    requires Lengthening(texts)
    ensures Growing(Files(generation, texts))
  {
    forall k | 0 < k < |texts| ensures Extends(Holding(generation, texts[k - 1]), Holding(generation, texts[k])) {
      var more := texts[k][|texts[k - 1]|..];
      assert texts[k] == texts[k - 1] + more;
      EncodeOfSum(texts[k - 1], more);
    }
  }

  /** One visit from a code point on: the next code points that fit, without a mark at their head. */
  lemma TextVisit(generation: nat, text: seq<Scalar>, done: nat, scope: nat, cursor: Option<Cursor>, maxBytes: nat)
    requires done <= |text| && maxBytes >= 12 && Place(cursor) == Size(text[..done])
    requires cursor.Some? ==> Usable(Holding(generation, text), scope, cursor.value)
    ensures var reply := ReadLogAt(Holding(generation, text), scope, cursor, maxBytes);
            var piece := text[done..][..F.Piece(text[done..], maxBytes)];
            && reply.Page? && reply.chunk.text == StripMark(piece)
            && reply.cursor.offset == Size(text[..done + |piece|])
            && reply.chunk.eof == (done + |piece| == |text|)
            && Issued(Holding(generation, text), scope, reply.cursor)
  {
    hide Anchor, ReadSized, F.ReadAt, F.Piece, Encode, Size, StripMark;
    var file := Holding(generation, text);
    IssuedReads(file, scope, cursor, maxBytes);
    assert text[..done] + text[done..] == text;
    F.ReadOfText(text[..done], text[done..], maxBytes);
    F.AtRest(file.bytes, Size(text[..done]), maxBytes);
    var k := F.Piece(text[done..], maxBytes);
    assert text[..done] + text[done..][..k] == text[..done + k];
  }

  /** The visits took the text from this code point on, and the last page says where they stopped. */
  ghost predicate TookFrom(texts: seq<seq<Scalar>>, done: nat, pieces: seq<seq<Scalar>>, replies: seq<Reply>) {
    && Texts(replies) == F.Stripped(pieces) && |replies| == |texts|
    && (texts != [] ==>
          && var (last, end, reply) := (texts[|texts| - 1], done + |F.Joined(pieces)|, replies[|replies| - 1]);
          && end <= |last| && F.Joined(pieces) == last[done..end]
          && reply.Page? && reply.cursor.offset == Size(last[..end]) && reply.chunk.eof == (end == |last|))
  }

  lemma TookOneMore(texts: seq<seq<Scalar>>, done: nat, piece: seq<Scalar>, pieces: seq<seq<Scalar>>, reply: Reply,
                    further: seq<Reply>)
    requires texts != [] && Lengthening(texts) && done + |piece| <= |texts[0]|
    requires piece == texts[0][done..done + |piece|]
    requires TookFrom(texts[1..], done + |piece|, pieces, further)
    requires reply.Page? && reply.chunk.text == StripMark(piece)
    requires reply.cursor.offset == Size(texts[0][..done + |piece|])
    requires reply.chunk.eof == (done + |piece| == |texts[0]|)
    ensures TookFrom(texts, done, [piece] + pieces, [reply] + further)
  {
    hide StripMark, Size;
    var all := [piece] + pieces;
    assert F.Joined(all) == piece + F.Joined(pieces) by { assert all[1..] == pieces; }
    assert Texts([reply] + further) == [reply.chunk.text] + Texts(further);
    assert F.Stripped(all) == [StripMark(piece)] + F.Stripped(pieces);
    if |texts| > 1 {
      FirstIsPrefix(texts, |texts| - 1);
      var last := texts[|texts| - 1];
      assert last == texts[1..][|texts| - 2];
      var end := done + |F.Joined(all)|;
      assert last[done..end] == last[done..done + |piece|] + last[done + |piece|..end];
      assert piece == last[done..done + |piece|];
      assert ([reply] + further)[|further|] == further[|further| - 1];
    } else {
      NothingTaken(texts[1..], done + |piece|, pieces, further);
      assert F.Joined(all) == piece;
    }
  }

  lemma NothingTaken(texts: seq<seq<Scalar>>, done: nat, pieces: seq<seq<Scalar>>, replies: seq<Reply>)
    requires texts == [] && TookFrom(texts, done, pieces, replies)
    ensures pieces == [] && replies == [] && F.Joined(pieces) == []
  {
    assert |Texts(replies)| == |F.Stripped(pieces)|;
  }

  lemma {:induction false} FirstIsPrefix(texts: seq<seq<Scalar>>, k: nat)
    requires Lengthening(texts) && k < |texts|
    ensures texts[0] <= texts[k]
  {
    if k > 0 { FirstIsPrefix(texts, k - 1); }
  }

  lemma NextVisit(generation: nat, texts: seq<seq<Scalar>>, done: nat, scope: nat, cursor: Cursor)
    requires Lengthening(texts) && |texts| > 1 && done <= |texts[0]| && cursor.offset == Size(texts[0][..done])
    requires Issued(Holding(generation, texts[0]), scope, cursor)
    ensures Lengthening(texts[1..]) && done <= |texts[1]| && Place(Some(cursor)) == Size(texts[1][..done])
    ensures Usable(Holding(generation, texts[1]), scope, cursor)
  {
    hide Usable, Issued, Encode, Size;
    assert texts[0] <= texts[1];
    assert texts[0][..done] == texts[1][..done];
    assert Extends(Holding(generation, texts[0]), Holding(generation, texts[1])) by {
      FilesGrow(generation, texts);
      assert Extends(Files(generation, texts)[0], Files(generation, texts)[1]);
    }
    StillIssued(Holding(generation, texts[0]), Holding(generation, texts[1]), scope, cursor);
  }

  lemma PolledFirst(generation: nat, texts: seq<seq<Scalar>>, scope: nat, cursor: Option<Cursor>, maxBytes: nat)
    requires texts != [] && ReadLogAt(Holding(generation, texts[0]), scope, cursor, maxBytes).Page?
    ensures var reply := ReadLogAt(Holding(generation, texts[0]), scope, cursor, maxBytes);
            Polled(Files(generation, texts), scope, cursor, maxBytes)
            == [reply] + Polled(Files(generation, texts[1..]), scope, Some(reply.cursor), maxBytes)
  {
    hide ReadLogAt, Holding;
    assert Files(generation, texts)[1..] == Files(generation, texts[1..]);
  }

  lemma TakenFirst(texts: seq<seq<Scalar>>, done: nat, maxBytes: nat)
    requires texts != [] && done <= |texts[0]|
    ensures var piece := texts[0][done..][..F.Piece(texts[0][done..], maxBytes)];
            && done + |piece| <= |texts[0]| && piece == texts[0][done..done + |piece|]
            && Taken(texts, done, maxBytes) == [piece] + Taken(texts[1..], done + |piece|, maxBytes)
  {
  }

  lemma Lengthens(texts: seq<seq<Scalar>>)
    requires texts == []
    ensures Lengthening(texts)
  {
  }

  lemma TookNothing(generation: nat, done: nat, scope: nat, cursor: Option<Cursor>, maxBytes: nat)
    ensures TookFrom([], done, Taken([], done, maxBytes), Polled(Files(generation, []), scope, cursor, maxBytes))
  {
    assert Files(generation, []) == [];
  }

  lemma {:induction false} TextIsPolled(generation: nat, texts: seq<seq<Scalar>>, done: nat, scope: nat,
                                        cursor: Option<Cursor>, maxBytes: nat)
    requires Lengthening(texts) && maxBytes >= 12
    requires texts != [] ==> done <= |texts[0]| && Place(cursor) == Size(texts[0][..done])
    requires texts != [] && cursor.Some? ==> Usable(Holding(generation, texts[0]), scope, cursor.value)
    ensures TookFrom(texts, done, Taken(texts, done, maxBytes),
                     Polled(Files(generation, texts), scope, cursor, maxBytes))
    decreases |texts|
  {
    hide *;
    if texts == [] {
      TookNothing(generation, done, scope, cursor, maxBytes);
    } else {
      TextVisit(generation, texts[0], done, scope, cursor, maxBytes);
      PolledFirst(generation, texts, scope, cursor, maxBytes);
      var reply := ReadLogAt(Holding(generation, texts[0]), scope, cursor, maxBytes);
      var piece := texts[0][done..][..F.Piece(texts[0][done..], maxBytes)];
      TakenFirst(texts, done, maxBytes);
      if |texts| > 1 {
        NextVisit(generation, texts, done + |piece|, scope, reply.cursor);
      } else {
        Lengthens(texts[1..]);
      }
      TextIsPolled(generation, texts[1..], done + |piece|, scope, Some(reply.cursor), maxBytes);
      TookOneMore(texts, done, piece, Taken(texts[1..], done + |piece|, maxBytes), reply,
                  Polled(Files(generation, texts[1..]), scope, Some(reply.cursor), maxBytes));
    }
  }

  // ----- what the reader holds of the text -----

  /** A piece that does not begin the text begins at a byte order mark. */
  ghost predicate LosesMark(pieces: seq<seq<Scalar>>) {
    exists k :: 0 <= k < |pieces| && F.Marked(pieces[k]) && F.Joined(pieces[..k]) != []
  }

  lemma {:induction false} OnlyHeadMark(pieces: seq<seq<Scalar>>)
    ensures F.Joined(F.Stripped(pieces)) == StripMark(F.Joined(pieces)) <==> !LosesMark(pieces)
  {
    if pieces != [] {
      var (first, later) := (pieces[0], pieces[1..]);
      F.SplitFirst(pieces);
      if first == [] {
        OnlyHeadMark(later);
        MarksBehindNothing(pieces);
        assert F.Joined(pieces) == F.Joined(later) && F.Joined(F.Stripped(pieces)) == F.Joined(F.Stripped(later));
      } else {
        F.StrippedWhole(pieces);
        MarksBehindSome(pieces);
      }
    }
  }

  lemma MarksBehindNothing(pieces: seq<seq<Scalar>>)
    requires pieces != [] && pieces[0] == []
    ensures LosesMark(pieces) <==> LosesMark(pieces[1..])
  {
    var later := pieces[1..];
    forall k | 0 <= k < |later|
      ensures F.Joined(later[..k]) == F.Joined(pieces[..k + 1]) && later[k] == pieces[k + 1]
    {
      assert pieces[..k + 1] == [pieces[0]] + later[..k];
      F.SplitFirst(pieces[..k + 1]);
    }
    if LosesMark(later) {
      var k :| 0 <= k < |later| && F.Marked(later[k]) && F.Joined(later[..k]) != [];
      assert F.Marked(pieces[k + 1]) && F.Joined(pieces[..k + 1]) != [];
    }
    if LosesMark(pieces) {
      var k :| 0 <= k < |pieces| && F.Marked(pieces[k]) && F.Joined(pieces[..k]) != [];
      assert pieces[..0] == [];
      assert F.Marked(later[k - 1]) && F.Joined(later[..k - 1]) != [];
    }
  }

  lemma MarksBehindSome(pieces: seq<seq<Scalar>>)
    requires pieces != [] && pieces[0] != []
    ensures LosesMark(pieces) <==> exists k :: 1 <= k < |pieces| && F.Marked(pieces[k])
  {
    assert pieces[..0] == [];
    forall k | 1 <= k < |pieces| ensures F.Joined(pieces[..k]) != [] { F.SplitFirst(pieces[..k]); }
    if k :| 1 <= k < |pieces| && F.Marked(pieces[k]) { assert F.Joined(pieces[..k]) != []; }
  }

  /** A reader without a cursor has gathered nothing. */
  lemma {:induction false} NothingGathered(events: seq<R.Event>)
    ensures R.Run(events).0.cursor.None? ==> R.Run(events).1 == []
  {
    if events != [] {
      hide R.Apply, R.Gathered;
      var n := |events| - 1;
      NothingGathered(events[..n]);
      var (m, gathered) := R.Run(events[..n]);
      StaysWithout(m, gathered, events[n]);
    }
  }

  lemma StaysWithout(m: R.Model, gathered: seq<Scalar>, e: R.Event)
    requires m.cursor.None? ==> gathered == []
    ensures R.Apply(m, e).cursor.None? ==> R.Gathered(m, gathered, e) == []
  {
    hide R.Suffix;
  }

  lemma TookAll(texts: seq<seq<Scalar>>, pieces: seq<seq<Scalar>>, replies: seq<Reply>, after: seq<R.Event>,
                readBack: nat -> Cursor)
    requires texts != [] && TookFrom(texts, 0, pieces, replies) && Followed([], None, replies, after, readBack)
    ensures replies != [] && |replies| == |texts|
    ensures var (last, bytes) := (replies[|replies| - 1], Encode(texts[|texts| - 1]));
            && last.Page? && last.cursor.offset <= |bytes|
            && R.MayBegin(R.Run(after).0) && Asked(R.Run(after).0.cursor, readBack) == Some(last.cursor)
            && R.Run(after).1 == F.Joined(F.Stripped(pieces))
            && Text(bytes[..last.cursor.offset], false) == StripMark(F.Joined(pieces))
            && (last.chunk.eof ==> last.cursor.offset == |bytes|)
  {
    hide R.Run, F.Joined, F.Stripped, R.MayBegin, Decode, StripMark, Encode, Size;
    var (text, all) := (texts[|texts| - 1], F.Joined(pieces));
    assert text[0..|all|] == text[..|all|];
    assert text[..|text|] == text;
    F.EncodedPrefix(text, |all|);
    RoundTrip(all, false);
    assert [] + F.Joined(F.Stripped(pieces)) == F.Joined(F.Stripped(pieces));
  }

  /** Any run that may begin a read and has no cursor, then visits to a file as text is added to it: the reader
      holds the decoding of the bytes before its cursor, exactly when no page past the head of the file begins at a
      byte order mark; and once a page says it is the end, those are all the bytes there are. */
  lemma ReaderHoldsTheLog(events: seq<R.Event>, generation: nat, texts: seq<seq<Scalar>>, scope: nat,
                          written: Cursor -> nat, readBack: nat -> Cursor, maxBytes: nat)
    requires R.MayBegin(R.Run(events).0) && R.Run(events).0.cursor.None?
    requires texts != [] && Lengthening(texts) && Travels(written, readBack) && maxBytes >= 12
    ensures var files := Files(generation, texts);
            var (model, gathered) := R.Run(Visits(events, files, scope, written, readBack, maxBytes));
            var last := Polled(files, scope, None, maxBytes)[|texts| - 1];
            var bytes := Encode(texts[|texts| - 1]);
            && last.Page? && last.cursor.offset <= |bytes|
            && R.MayBegin(model) && Asked(model.cursor, readBack) == Some(last.cursor)
            && (gathered == Text(bytes[..last.cursor.offset], false) <==> !LosesMark(Taken(texts, 0, maxBytes)))
            && (last.chunk.eof ==> last.cursor.offset == |bytes|)
  {
    hide ReadLogAt, Usable, Issued, TookFrom, Followed, Visits, Polled, Taken, Decode, StripMark, F.Joined,
      F.Stripped, LosesMark;
    var files := Files(generation, texts);
    FilesGrow(generation, texts);
    NothingGathered(events);
    GathersWhatIsPolled(events, files, scope, None, written, readBack, maxBytes);
    TextIsPolled(generation, texts, 0, scope, None, maxBytes);
    var pieces := Taken(texts, 0, maxBytes);
    OnlyHeadMark(pieces);
    TookAll(texts, pieces, Polled(files, scope, None, maxBytes),
            Visits(events, files, scope, written, readBack, maxBytes), readBack);
  }
}
