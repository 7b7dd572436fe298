/** What a host shows of a project, what a result may rest on, and how it is reported. */
module Evidence {
  import opened Prelude
  import opened Wire
  import opened Journal
  import Json

  // ----- what is inspected -----

  datatype Process =
    | Running(pid: int, identity: string, observedAt: Json.Text)
    | Stopped(observedAt: Json.Text)
    | Unverified(observedAt: Json.Text, code: Json.Text, message: Json.Text)

  datatype Binding = Binding(configDir: string, runtimeProjectId: string)

  datatype Inspection = Inspection(
    invalid: bool, process: Process, runtime: Option<Binding>, ready: bool, locksReleased: bool)

  predicate Ready(i: Inspection) { i.process.Running? && i.ready }

  predicate Released(i: Inspection) { i.process.Stopped? && i.locksReleased }

  // ----- what a result rests on -----

  /** The inspection a result was drawn from, and the target seen to have exited beside it. */
  datatype Basis = Unseen | Seen(inspection: Inspection, exited: Option<StopTarget>)

  /** A succeeded start was seen running and ready; a succeeded stop was seen stopped with its
      locks released and, when a target is journaled, that very target was seen to have exited. */
  predicate Rests(e: Entry, state: State, b: Basis) {
    state == Succeeded ==>
      && b.Seen?
      && match e.command.operation
         case Start => Ready(b.inspection)
         case Stop => Released(b.inspection) && (e.stopTarget.Some? ==> b.exited == e.stopTarget)
  }

  /** Looking back at a stop proves nothing without a journaled target. */
  predicate RestsOnTarget(e: Entry, state: State, b: Basis) {
    Rests(e, state, b) && (state == Succeeded && e.command.operation == Stop ==> e.stopTarget.Some?)
  }

  lemma UnknownRests(e: Entry, b: Basis)
    ensures RestsOnTarget(e, Unknown, b)
  {
  }

  // ----- what is reported -----

  /** A digest stands for the text it was computed from. */
  datatype Digest = Digest(of: string)

  datatype PublicProcess =
    | PublicRunning(pid: int, identity: Digest, observedAt: Json.Text)
    | PublicStopped(observedAt: Json.Text)
    | PublicUnverified(observedAt: Json.Text, code: Json.Text, message: Json.Text)

  function Public(p: Process): PublicProcess {
    match p
    case Running(pid, identity, observedAt) => PublicRunning(pid, Digest(identity), observedAt)
    case Stopped(observedAt) => PublicStopped(observedAt)
    case Unverified(observedAt, code, message) => PublicUnverified(observedAt, code, message)
  }

  function Ascii(s: string): (text: Json.Text)
    requires forall i :: 0 <= i < |s| ==> s[i] < 128 as char
    ensures |text| == |s|
  {
    seq(|s|, i requires 0 <= i < |s| => s[i] as int)
  }

  /** Decimal digits. */
  function Natural(n: nat): (token: Json.Text)
    ensures token != [] && forall i :: 0 <= i < |token| ==> 0x30 <= token[i] <= 0x39
  {
    if n < 10 then [0x30 + n] else Natural(n / 10) + [0x30 + n % 10]
  }

  function Decimal(n: int): (token: Json.Text)
    ensures Json.ValidToken(token)
  {
    if n < 0 then [0x2D] + Natural(-n) else Natural(n)
  }

  function Field(name: string, v: Json.Value): Json.Keyed<Option<Json.Value>>
    requires forall i :: 0 <= i < |name| ==> name[i] < 128 as char
  {
    Json.Keyed(Ascii(name), Some(v))
  }

  function Words(s: string): Json.Value
    requires forall i :: 0 <= i < |s| ==> s[i] < 128 as char
  {
    Json.String(Ascii(s))
  }

  /** `hex` prints a digest. */
  function ProcessJson(p: PublicProcess, hex: Digest -> Json.Text): Json.Value {
    match p
    case PublicRunning(pid, identity, observedAt) =>
      Json.Object([Field("state", Words("running")), Field("observedAt", Json.String(observedAt)),
                   Field("pid", Json.Number(Decimal(pid))), Field("identity", Json.String(hex(identity)))])
    case PublicStopped(observedAt) =>
      Json.Object([Field("state", Words("stopped")), Field("observedAt", Json.String(observedAt))])
    case PublicUnverified(observedAt, code, message) =>
      Json.Object([Field("state", Words("unknown")), Field("observedAt", Json.String(observedAt)),
                   Field("diagnostic",
                         Json.Object([Field("code", Json.String(code)), Field("message", Json.String(message))]))])
  }

  /** The evidence of a result. */
  function EvidenceJson(state: State, p: PublicProcess, hex: Digest -> Json.Text): Json.Value {
    Json.Object([Field("verified", Json.Bool(state != Unknown)), Field("process", ProcessJson(p, hex))])
  }

  const UNRESOLVED_CODE := Ascii("unresolved_command")
  const NOT_VERIFIED := Ascii("Durable operation could ") + Ascii("not be verified; ")
  const RECONCILE := Ascii("reconcile or explicitly ")
  const OR_CLOSE := Ascii("close it without ") + Ascii("blind replay")

  lemma ProcessIsWellFormed(p: PublicProcess, hex: Digest -> Json.Text)
    ensures Json.WellFormed(ProcessJson(p, hex))
  {
    hide Json.ValidToken;
    assert Ascii("observedAt")[0] != Ascii("diagnostic")[0];
    match p
    case PublicRunning(pid, identity, observedAt) =>
      assert Json.WellFormed(Json.Number(Decimal(pid)));
    case PublicStopped(observedAt) =>
    case PublicUnverified(observedAt, code, message) =>
      assert Json.WellFormed(Json.Object([Field("code", Json.String(code)), Field("message", Json.String(message))]));
  }

  lemma EvidenceIsWellFormed(state: State, p: PublicProcess, hex: Digest -> Json.Text)
    ensures Json.WellFormed(EvidenceJson(state, p, hex))
  {
    ProcessIsWellFormed(p, hex);
  }

  // ----- what evidence tells -----

  /** The number its digits spell. */
  function Spelled(token: Json.Text): int {
    if token == [] then 0 else Spelled(token[..|token| - 1]) * 10 + token[|token| - 1] - 0x30
  }

  lemma {:induction false} NaturalSpells(n: nat)
    ensures Spelled(Natural(n)) == n
  {
    var token := Natural(n);
    if n >= 10 {
      NaturalSpells(n / 10);
      assert token[..|token| - 1] == Natural(n / 10);
    } else {
      assert token[..0] == [];
    }
  }

  lemma DecimalTells(m: int, n: int)
    ensures Decimal(m) == Decimal(n) <==> m == n
  {
    if Decimal(m) == Decimal(n) {
      if m < 0 {
        assert Decimal(m)[1..] == Natural(-m) && Decimal(m)[0] == 0x2D;
        NaturalSpells(-m);
      } else {
        NaturalSpells(m);
      }
      if n < 0 {
        assert Decimal(n)[1..] == Natural(-n) && Decimal(n)[0] == 0x2D;
        NaturalSpells(-n);
      } else {
        NaturalSpells(n);
      }
    }
  }

  /** Evidence shows whether the outcome was verified and exactly the process that was seen, its identity as a
      digest. */
  lemma EvidenceTells(s: State, p: Process, t: State, q: Process, hex: Digest -> Json.Text)
    requires forall d, e :: hex(d) == hex(e) ==> d == e
    ensures EvidenceJson(s, Public(p), hex) == EvidenceJson(t, Public(q), hex)
            <==> ((s == Unknown) == (t == Unknown)) && p == q
  {
    var (a, b) := (EvidenceJson(s, Public(p), hex), EvidenceJson(t, Public(q), hex));
    if a == b {
      assert a.members[0].item == b.members[0].item && a.members[1].item == b.members[1].item;
      ProcessTells(Public(p), Public(q), hex);
    }
  }

  lemma ProcessTells(p: PublicProcess, q: PublicProcess, hex: Digest -> Json.Text)
    requires (forall d, e :: hex(d) == hex(e) ==> d == e) && ProcessJson(p, hex) == ProcessJson(q, hex)
    ensures p == q
  {
    var (a, b) := (ProcessJson(p, hex), ProcessJson(q, hex));
    assert |a.members| == |b.members| && forall k :: 0 <= k < |a.members| ==> a.members[k] == b.members[k];
    if p.PublicRunning? && q.PublicRunning? { DecimalTells(p.pid, q.pid); }
  }
}
