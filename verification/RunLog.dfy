/** The browser's model of one run log: which reads may begin and what text is retained. */
module RunLog {
  import opened Prelude
  import opened Utf8

  const RETAINED_BYTES := 256 * 1024

  datatype Phase = Empty | Loading | Ready | ResetRequired | Unavailable | Expired | Offline | SessionExpired

  /** What one read came to. A foreign payload is of another kind, run or stream. */
  datatype Result =
    | StillPending
    | Foreign
    | Completed(text: seq<Scalar>, reset: bool, cursor: nat, completedAt: int)
    | Failed(phase: Phase)

  datatype Model = Model(
    phase: Phase, text: seq<Scalar>, cursor: Option<nat>, fetchedAt: Option<int>, historical: bool, following: bool,
    online: bool, revision: nat, pending: Option<nat>, needsReset: bool, sessionExpired: bool)

  const INITIAL := Model(Empty, [], None, None, false, false, true, 0, None, false, false)

  // ----- the retained suffix -----

  /** The longest suffix of whole code points within the limit. */
  function Suffix(text: seq<Scalar>, limit: nat): seq<Scalar> {
    if Size(text) <= limit then text else Suffix(text[1..], limit)
  }

  lemma {:induction false} SuffixIsLongest(text: seq<Scalar>, limit: nat, k: nat)
    requires k <= |text|
    ensures Size(Suffix(text, limit)) <= limit
    ensures |Suffix(text, limit)| <= |text| && Suffix(text, limit) == text[|text| - |Suffix(text, limit)|..]
    ensures k > |Suffix(text, limit)| ==> Size(text[|text| - k..]) > limit
  {
    if Size(text) > limit {
      SuffixIsLongest(text[1..], limit, if k == |text| then 0 else k);
      if k < |text| { assert text[1..][|text| - 1 - k..] == text[|text| - k..]; }
    }
  }

  /** Cutting along the way retains what cutting once at the end would retain. */
  lemma {:induction false} SuffixComposes(a: seq<Scalar>, b: seq<Scalar>, limit: nat)
    ensures Suffix(Suffix(a, limit) + b, limit) == Suffix(a + b, limit)
  {
    if Size(a) > limit {
      SizeOfSum(a, b);
      assert (a + b)[1..] == a[1..] + b;
      SuffixComposes(a[1..], b, limit);
    }
  }

  /** Skipping continuation bytes from a cut ends at the next code point. */
  predicate SkipsTo(bytes: seq<Byte>, cut: nat, start: nat) {
    && cut <= start <= |bytes|
    && (forall i :: cut <= i < start ==> Continuation(bytes[i]))
    && (start < |bytes| ==> !Continuation(bytes[start]))
  }

  /** A cut that is not at the head skips at least the first code point. */
  lemma SkipsHead(one: seq<Byte>, others: seq<Byte>, cut: nat, start: nat)
    requires 0 < cut && SkipsTo(one + others, cut, start)
    requires forall i :: 1 <= i < |one| ==> Continuation(one[i])
    ensures |one| <= start
    ensures SkipsTo(others, if cut >= |one| then cut - |one| else 0, start - |one|)
    ensures (one + others)[start..] == others[start - |one|..]
  {
    var bytes := one + others;
    assert forall i :: 0 <= i < |one| ==> bytes[i] == one[i];
    var below := if cut >= |one| then cut - |one| else 0;
    forall i | below <= i < start - |one| ensures Continuation(others[i]) { assert bytes[i + |one|] == others[i]; }
  }

  lemma EncodedSplit(text: seq<Scalar>)
    requires text != []
    ensures Encode(text) == EncodeOne(text[0]) + Encode(text[1..]) && Size(text) == Width(text[0]) + Size(text[1..])
    ensures !Continuation(Encode(text)[0])
  {
    EncodedShape(text[0]);
  }

  /** What is left of the bytes is the longest suffix of whole code points. */
  lemma {:induction false} CutIsSuffix(text: seq<Scalar>, cut: nat, start: nat)
    requires SkipsTo(Encode(text), cut, start)
    ensures Encode(text)[start..] == Encode(Suffix(text, Size(text) - cut))
  {
    hide EncodeOne, Encode, Size;
    EncodedNothing();
    if text == [] {
      assert Encode(text)[start..] == [];
    } else if cut > 0 {
      EncodedSplit(text);
      var (one, w, others) := (EncodeOne(text[0]), Width(text[0]), Encode(text[1..]));
      EncodedShape(text[0]);
      SkipsHead(one, others, cut, start);
      CutIsSuffix(text[1..], if cut >= w then cut - w else 0, start - w);
      if cut < w { SuffixOfEnough(text, cut); }
    } else {
      EncodedSplit(text);
      assert start == 0 && Encode(text)[0..] == Encode(text);
    }
  }

  lemma EncodedNothing()
    ensures Encode([]) == [] && Size([]) == 0 && Suffix([], 0) == []
  {
  }

  /** A cut inside the first code point leaves all the others. */
  lemma SuffixOfEnough(text: seq<Scalar>, cut: nat)
    requires text != [] && 0 < cut < Width(text[0])
    ensures Suffix(text, Size(text) - cut) == text[1..] == Suffix(text[1..], Size(text[1..]))
  {
  }

  // ----- the model as a function of events -----

  datatype Event =
    | Begin
    | Receive(revision: nat, result: Result, historical: bool)
    | Pause
    | Follow
    | ExpireSession
    | Disconnect
    | Reconnect
    | Reset

  /** A read may begin; this is what it asks for. */
  predicate MayBegin(m: Model) { !m.sessionExpired && m.online && m.pending.None? && m.phase != ResetRequired }

  function Received(m: Model, revision: nat, result: Result, historical: bool): Model {
    if m.pending != Some(revision) then m
    else match result
      case StillPending => m
      case Foreign => m
      case Completed(text, reset, cursor, completedAt) =>
        if reset then
          m.(pending := None, needsReset := true, phase := ResetRequired, following := false, historical := true)
        else
          m.(pending := None, text := Suffix(m.text + text, RETAINED_BYTES), cursor := Some(cursor),
             fetchedAt := Some(completedAt), historical := historical, phase := Ready,
             following := m.following && !historical)
      case Failed(phase) => m.(pending := None, phase := phase, following := false, historical := true)
  }

  function Apply(m: Model, e: Event): Model {
    match e
    case Begin =>
      if MayBegin(m) then m.(revision := m.revision + 1, pending := Some(m.revision + 1), phase := Loading) else m
    case Receive(revision, result, historical) => Received(m, revision, result, historical)
    case Pause => m.(following := false)
    case Follow => if !m.sessionExpired && m.online && m.phase != ResetRequired then m.(following := true) else m
    case ExpireSession =>
      m.(sessionExpired := true, pending := None, following := false, historical := true, phase := SessionExpired)
    case Disconnect =>
      m.(online := false, following := false, historical := true, pending := None,
         phase := if m.sessionExpired then SessionExpired else Offline)
    case Reconnect =>
      if m.phase != Offline then m.(online := true)
      else m.(online := true, phase := if m.needsReset then ResetRequired else Ready)
    case Reset =>
      if !m.online || m.sessionExpired then m
      else
        m.(pending := None, needsReset := false, cursor := None, text := [], fetchedAt := None, following := false,
           phase := Empty)
  }

  // ----- what holds in every run -----

  /** Everything that was received since the last reset. */
  function Gathered(m: Model, gathered: seq<Scalar>, e: Event): seq<Scalar> {
    match e
    case Receive(revision, Completed(text, false, _, _), _) =>
      if m.pending == Some(revision) then gathered + text else gathered
    case Reset => if m.online && !m.sessionExpired then [] else gathered
    case _ => gathered
  }

  function Run(events: seq<Event>): (Model, seq<Scalar>) {
    if events == [] then (INITIAL, [])
    else
      var (m, gathered) := Run(events[..|events| - 1]);
      (Apply(m, events[|events| - 1]), Gathered(m, gathered, events[|events| - 1]))
  }

  /** A failed read reports unavailability or expiry. */
  predicate Reports(e: Event) {
    e.Receive? && e.result.Failed? ==> e.result.phase == Unavailable || e.result.phase == Expired
  }

  predicate Consistent(m: Model) {
    && (m.following ==> m.online && !m.sessionExpired && !m.needsReset && m.phase != ResetRequired)
    && (m.sessionExpired <==> m.phase == SessionExpired)
    && (m.pending.Some? <==> m.phase == Loading)
    && (m.pending.Some? ==> m.pending == Some(m.revision))
    && (!m.online ==> m.phase == Offline || m.phase == SessionExpired)
    && (m.phase == Offline ==> !m.online)
    && (m.needsReset ==> m.phase == ResetRequired || m.phase == Offline || m.phase == SessionExpired)
    && (m.phase == ResetRequired ==> m.needsReset)
    && Size(m.text) <= RETAINED_BYTES
  }

  lemma ApplyKeeps(m: Model, gathered: seq<Scalar>, e: Event)
    requires Consistent(m) && Reports(e) && m.text == Suffix(gathered, RETAINED_BYTES)
    ensures Consistent(Apply(m, e)) && Apply(m, e).text == Suffix(Gathered(m, gathered, e), RETAINED_BYTES)
  {
    hide Suffix;
    if e.Receive? && e.result.Completed? && !e.result.reset && m.pending == Some(e.revision) {
      SuffixComposes(gathered, e.result.text, RETAINED_BYTES);
      SuffixIsLongest(gathered + e.result.text, RETAINED_BYTES, 0);
    }
    NothingRetained();
  }

  lemma NothingRetained()
    ensures Suffix([], RETAINED_BYTES) == [] && Size([]) == 0
  {
  }

  /** In every run the phases are consistent, and the text is the longest suffix of
      whole code points of everything received since the last reset. */
  lemma {:induction false} RunIsConsistent(events: seq<Event>)
    requires forall k :: 0 <= k < |events| ==> Reports(events[k])
    ensures Consistent(Run(events).0)
    ensures Run(events).0.text == Suffix(Run(events).1, RETAINED_BYTES)
  {
    if events != [] {
      var n := |events| - 1;
      RunIsConsistent(events[..n]);
      ApplyKeeps(Run(events[..n]).0, Run(events[..n]).1, events[n]);
    } else {
      NothingRetained();
    }
  }

  /** An explicit reset took effect. */
  predicate ResetTaken(m: Model, e: Event) { e.Reset? && m.online && !m.sessionExpired }

  /** After a rotation no read begins until an explicit reset takes effect, whatever comes in between. */
  lemma {:induction false} NoReadAfterRotation(events: seq<Event>, i: nat, j: nat)
    requires forall k :: 0 <= k < |events| ==> Reports(events[k])
    requires i <= j <= |events| && Run(events[..i]).0.needsReset
    requires forall k :: i <= k < j ==> !ResetTaken(Run(events[..k]).0, events[k])
    ensures Run(events[..j]).0.needsReset && !MayBegin(Run(events[..j]).0)
    ensures Run(events[..j]).0.revision == Run(events[..i]).0.revision && !Run(events[..j]).0.following
  {
    hide Consistent;
    if i < j {
      NoReadAfterRotation(events, i, j - 1);
      assert events[..j][..j - 1] == events[..j - 1];
      StaysRotated(events[..j - 1], events[j - 1]);
    }
    RunIsConsistent(events[..j]);
    RotatedReadsNothing(Run(events[..j]).0);
  }

  lemma StaysRotated(events: seq<Event>, e: Event)
    requires (forall k :: 0 <= k < |events| ==> Reports(events[k])) && Reports(e)
    requires Run(events).0.needsReset && !ResetTaken(Run(events).0, e)
    ensures Apply(Run(events).0, e).needsReset && Apply(Run(events).0, e).revision == Run(events).0.revision
  {
    hide Suffix;
    RunIsConsistent(events);
  }

  lemma RotatedReadsNothing(m: Model)
    requires Consistent(m) && m.needsReset
    ensures !MayBegin(m) && !m.following
  {
  }

  /** A session that expired stays expired, and nothing it shows changes again but its connection. */
  lemma SessionExpiryIsFinal(m: Model, e: Event)
    requires Consistent(m) && m.sessionExpired
    ensures var n := Apply(m, e);
            n.sessionExpired && n.phase == SessionExpired && !n.following && !MayBegin(n)
            && n.text == m.text && n.cursor == m.cursor && n.revision == m.revision
  {
    hide Suffix;
  }

  /** Only the latest read is awaited: a reply to any earlier one changes nothing. */
  lemma StaleRepliesAreIgnored(m: Model, revision: nat, result: Result, historical: bool)
    requires Consistent(m) && revision != m.revision
    ensures Apply(m, Receive(revision, result, historical)) == m
  {
  }

  // ----- the model object -----

  class RunLogModel {
    var phase: Phase
    var text: seq<Scalar>
    var cursor: Option<nat>
    var fetchedAt: Option<int>
    var historical: bool
    var following: bool
    var online: bool
    var revision: nat
    var pending: Option<nat>
    var needsReset: bool
    var sessionExpired: bool

    function State(): Model
      reads this
    {
      Model(phase, text, cursor, fetchedAt, historical, following, online, revision, pending, needsReset,
            sessionExpired)
    }

    constructor ()
      ensures State() == INITIAL
    {
      phase, text, cursor, fetchedAt := Empty, [], None, None;
      historical, following, online := false, false, true;
      revision, pending, needsReset, sessionExpired := 0, None, false, false;
    }

    /** The revision and cursor of the read that begins. */
    method Begin() returns (read: Option<(nat, Option<nat>)>)
      modifies this
      ensures State() == Apply(old(State()), Event.Begin)
      ensures read == if MayBegin(old(State())) then Some((old(revision) + 1, old(cursor))) else None
    {
      if sessionExpired || !online || pending.Some? || phase == ResetRequired { return None; }
      revision := revision + 1;
      pending := Some(revision);
      phase := Loading;
      read := Some((revision, cursor));
    }

    /** A foreign payload throws; the read stays awaited. */
    method Receive(revision: nat, result: Result, historical: bool) returns (ok: bool)
      modifies this
      ensures State() == Apply(old(State()), Event.Receive(revision, result, historical))
      ensures ok == !(old(pending) == Some(revision) && result.Foreign?)
    {
      hide Suffix, Size;
      if pending != Some(revision) { return true; }
      match result {
        case StillPending => ok := true;
        case Foreign => ok := false;
        case Completed(chunk, reset, next, completedAt) =>
          ok := true;
          pending := None;
          if reset {
            needsReset, phase, following := true, ResetRequired, false;
            this.historical := true;
            return;
          }
          text := Retain(text + chunk);
          cursor, fetchedAt := Some(next), Some(completedAt);
          this.historical, phase := historical, Ready;
          if historical { following := false; }
        case Failed(failed) =>
          ok := true;
          pending, phase, following := None, failed, false;
          this.historical := true;
      }
    }

    /** Cuts the encoded text to the limit and on to the next code point. */
    method Retain(all: seq<Scalar>) returns (kept: seq<Scalar>)
      ensures kept == Suffix(all, RETAINED_BYTES)
    {
      hide Suffix, Encode, Decode;
      var bytes := Encode(all);
      var cut := if |bytes| > RETAINED_BYTES then |bytes| - RETAINED_BYTES else 0;
      var start := cut;
      while start < |bytes| && Continuation(bytes[start])
        invariant cut <= start <= |bytes|
        invariant forall i :: cut <= i < start ==> Continuation(bytes[i])
      {
        start := start + 1;
      }
      kept := Decode(bytes[start..], false);
      CutIsSuffix(all, cut, start);
      RoundTrip(Suffix(all, Size(all) - cut), false);
      if cut == 0 { SmallIsKept(all); }
    }

    method Pause()
      modifies this
      ensures State() == Apply(old(State()), Event.Pause)
    {
      following := false;
    }

    method Follow()
      modifies this
      ensures State() == Apply(old(State()), Event.Follow)
    {
      if !sessionExpired && online && phase != ResetRequired { following := true; }
    }

    method ExpireSession()
      modifies this
      ensures State() == Apply(old(State()), Event.ExpireSession)
    {
      sessionExpired := true;
      pending := None;
      following := false;
      historical := true;
      phase := SessionExpired;
    }

    method Disconnect()
      modifies this
      ensures State() == Apply(old(State()), Event.Disconnect)
    {
      online := false;
      following := false;
      historical := true;
      pending := None;
      phase := if sessionExpired then SessionExpired else Offline;
    }

    method Reconnect()
      modifies this
      ensures State() == Apply(old(State()), Event.Reconnect)
    {
      online := true;
      if phase == Offline { phase := if needsReset then ResetRequired else Ready; }
    }

    method Reset()
      modifies this
      ensures State() == Apply(old(State()), Event.Reset)
    {
      if !online || sessionExpired { return; }
      pending := None;
      needsReset := false;
      cursor := None;
      text := [];
      fetchedAt := None;
      following := false;
      phase := Empty;
    }
  }

  lemma SmallIsKept(text: seq<Scalar>)
    requires Size(text) <= RETAINED_BYTES
    ensures Suffix(text, RETAINED_BYTES) == text == Suffix(text, Size(text))
  {
  }
}
