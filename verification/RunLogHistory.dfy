/** What the browser's model of a run log shows, told from the events alone. */
module RunLogHistory {
  import opened Prelude
  import opened RunLog

  // ----- what the events come to -----

  /** What happened, without any phase: whether the connection and the session stand, whether the log rotated, the
      read now awaited, and what the last chunk said. */
  datatype Watch = Watch(
    online: bool, expired: bool, rotated: bool, begun: nat, awaited: Option<nat>, cursor: Option<nat>,
    fetchedAt: Option<int>, following: bool, historical: bool)

  const UNWATCHED := Watch(true, false, false, 0, None, None, None, false, false)

  /** Nothing stands in the way of a read. */
  predicate Clear(w: Watch) { w.online && !w.expired && !w.rotated && w.awaited.None? }

  function Heard(w: Watch, result: Result, historical: bool): Watch {
    match result
    case StillPending => w
    case Foreign => w
    case Failed(_) => w.(awaited := None, following := false, historical := true)
    case Completed(_, reset, cursor, completedAt) =>
      if reset then w.(awaited := None, rotated := true, following := false, historical := true)
      else w.(awaited := None, cursor := Some(cursor), fetchedAt := Some(completedAt), historical := historical,
              following := w.following && !historical)
  }

  function Seen(w: Watch, e: Event): Watch {
    match e
    case Begin => if Clear(w) then w.(begun := w.begun + 1, awaited := Some(w.begun + 1)) else w
    case Receive(revision, result, historical) => if w.awaited == Some(revision) then Heard(w, result, historical)
                                                  else w
    case Pause => w.(following := false)
    case Follow => w.(following := w.following || (w.online && !w.expired && !w.rotated))
    case ExpireSession => w.(expired := true, awaited := None, following := false, historical := true)
    case Disconnect => w.(online := false, awaited := None, following := false, historical := true)
    case Reconnect => w.(online := true)
    case Reset =>
      if w.online && !w.expired
      then w.(rotated := false, awaited := None, cursor := None, fetchedAt := None, following := false) else w
  }

  function Watched(events: seq<Event>): Watch {
    if events == [] then UNWATCHED else Seen(Watched(events[..|events| - 1]), events[|events| - 1])
  }

  /** The model shows exactly this, and its phase follows: expired, offline, rotated, loading, or at rest. */
  predicate Mirrors(m: Model, w: Watch) {
    && m.online == w.online && m.sessionExpired == w.expired && m.needsReset == w.rotated && m.revision == w.begun
    && m.pending == w.awaited && m.cursor == w.cursor && m.fetchedAt == w.fetchedAt && m.following == w.following
    && m.historical == w.historical
    && (m.phase == SessionExpired <==> w.expired)
    && (m.phase == Offline <==> !w.online && !w.expired)
    && (m.phase == ResetRequired <==> w.online && !w.expired && w.rotated)
    && (m.phase == Loading <==> w.awaited.Some?)
    && (MayBegin(m) <==> Clear(w))
  }

  lemma EventMirrored(m: Model, w: Watch, e: Event)
    requires Mirrors(m, w) && Reports(e)
    requires w.awaited.Some? ==> w.online && !w.expired && !w.rotated
    ensures Mirrors(Apply(m, e), Seen(w, e))
    ensures Seen(w, e).awaited.Some? ==> Seen(w, e).online && !Seen(w, e).expired && !Seen(w, e).rotated
  {
    hide Suffix;
  }

  /** In every run the model is what its events come to: reads begin exactly while the connection and the session
      stand, no rotation is waiting to be reset and no read is awaited. */
  lemma {:induction false} RunIsWatched(events: seq<Event>)
    requires forall k :: 0 <= k < |events| ==> Reports(events[k])
    ensures Mirrors(Run(events).0, Watched(events))
    ensures var w := Watched(events); w.awaited.Some? ==> w.online && !w.expired && !w.rotated
  {
    if events != [] {
      var n := |events| - 1;
      RunIsWatched(events[..n]);
      EventMirrored(Run(events[..n]).0, Watched(events[..n]), events[n]);
    }
  }

  // ----- the cursor of the next read -----

  /** Event j brought a chunk for the read that was awaited. */
  ghost predicate TakenAt(events: seq<Event>, j: nat) {
    && j < |events| && events[j].Receive? && events[j].result.Completed? && !events[j].result.reset
    && Watched(events[..j]).awaited == Some(events[j].revision)
  }

  /** Event j reset the model. */
  ghost predicate ResetAt(events: seq<Event>, j: nat) {
    j < |events| && events[j].Reset? && Watched(events[..j]).online && !Watched(events[..j]).expired
  }

  /** Event j brought the last chunk since the last reset. */
  ghost predicate LastTaken(events: seq<Event>, j: nat) {
    TakenAt(events, j) && forall i: nat :: j < i < |events| ==> !TakenAt(events, i) && !ResetAt(events, i)
  }

  lemma TakenBefore(events: seq<Event>, e: Event, j: nat)
    requires j < |events|
    ensures TakenAt(events + [e], j) <==> TakenAt(events, j)
    ensures ResetAt(events + [e], j) <==> ResetAt(events, j)
  {
    assert (events + [e])[..j] == events[..j];
  }

  lemma TakenNow(events: seq<Event>, e: Event)
    ensures TakenAt(events + [e], |events|) <==>
              e.Receive? && e.result.Completed? && !e.result.reset && Watched(events).awaited == Some(e.revision)
    ensures ResetAt(events + [e], |events|) <==> e.Reset? && Watched(events).online && !Watched(events).expired
    ensures Watched(events + [e]) == Seen(Watched(events), e)
  {
    assert (events + [e])[..|events|] == events;
  }

  lemma {:induction false} CursorWatched(events: seq<Event>)
    ensures Watched(events).cursor.Some? ==> exists j: nat :: LastTaken(events, j)
    ensures forall j: nat :: LastTaken(events, j) ==>
              && Watched(events).cursor == Some(events[j].result.cursor)
              && Watched(events).fetchedAt == Some(events[j].result.completedAt)
  {
    if events != [] {
      var n := |events| - 1;
      var (before, e) := (events[..n], events[n]);
      assert events == before + [e];
      CursorWatched(before);
      TakenNow(before, e);
      CursorStep(Watched(before), e);
      forall j: nat | j < n ensures TakenAt(events, j) <==> TakenAt(before, j)
        ensures ResetAt(events, j) <==> ResetAt(before, j)
      {
        TakenBefore(before, e, j);
      }
      hide TakenAt, ResetAt;
      if TakenAt(events, n) {
        assert LastTaken(events, n);
      } else if !ResetAt(events, n) && Watched(before).cursor.Some? {
        var j: nat :| LastTaken(before, j);
        LastIsInside(before, j);
        assert LastTaken(events, j);
      }
      forall j: nat | LastTaken(events, j) && j < n && !ResetAt(events, n) ensures LastTaken(before, j) {
      }
      forall j: nat | LastTaken(events, j) ensures j <= n { LastIsInside(events, j); }
    }
  }

  lemma LastIsInside(events: seq<Event>, j: nat)
    requires LastTaken(events, j)
    ensures j < |events| && events[j].Receive? && events[j].result.Completed?
  {
  }

  lemma CursorStep(w: Watch, e: Event)
    ensures var v := Seen(w, e);
            if e.Receive? && e.result.Completed? && !e.result.reset && w.awaited == Some(e.revision) then
              v.cursor == Some(e.result.cursor) && v.fetchedAt == Some(e.result.completedAt)
            else if e.Reset? && w.online && !w.expired then v.cursor.None? && v.fetchedAt.None?
            else v.cursor == w.cursor && v.fetchedAt == w.fetchedAt
  {
  }

  /** In every run, the read that begins asks with the cursor of the last chunk that answered a read since the last
      reset, and with none if there was none. */
  lemma ReadsResume(events: seq<Event>)
    requires forall k :: 0 <= k < |events| ==> Reports(events[k])
    ensures var m := Run(events).0;
            && (m.cursor.Some? <==> exists j: nat :: LastTaken(events, j))
            && forall j: nat :: LastTaken(events, j) ==>
                 m.cursor == Some(events[j].result.cursor) && m.fetchedAt == Some(events[j].result.completedAt)
  {
    hide Watched, LastTaken;
    RunIsWatched(events);
    CursorWatched(events);
  }
}
