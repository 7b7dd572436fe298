/**
 Who gets in, in every run of the fleet: which enrollments, sessions and
 heartbeats are taken, told from the requests before them and the clock.
 */
module FleetFencing {
  import opened Prelude
  import opened Wire
  import opened F = Fleet
  import opened FleetRuns
  import opened FleetProofs
  import opened FleetObservation
  import opened FleetTheorems
  import L = Ledger

  // ----- tokens -----

  /** The request was for this environment and changed something. */
  ghost predicate Took(s: Moment, r: Request, t: Moment, id: Uuid) {
    && t != s
    && match r
       case DoCreate(e, _, _) => e == id
       case DoRegenerate(e, _, _) => e == id
       case DoEnroll(e, _, _, _, _) => e == id
       case DoRevoke(e, _) => e == id
       case DoOpen(e, _, _, _, _) => e == id
       case _ => false
  }

  predicate Issues(r: Request) { r.DoCreate? || r.DoRegenerate? }

  /** What the rest of the fleet's requests leave of tokens and credentials. */
  lemma OthersLeaveAccess(s: Moment, r: Request)
    requires Inv(s) && Admissible(s, r) && (r.DoObserve? || r.DoIdentify? || r.DoCommand?)
    ensures Next(s, r).fleet.tokens == s.fleet.tokens && Next(s, r).fleet.credentials == s.fleet.credentials
    ensures !r.DoObserve? ==>
            Next(s, r).fleet.sessions == s.fleet.sessions && Next(s, r).fleet.environments == s.fleet.environments
  {
    hide Inv, ReceiveObservation, IdentifyProjects, L.Next, OnlyNames;
    if r.DoObserve? {
      hide Effect;
      if Effect(s.fleet, r).Some? { HeartbeatLeavesAccess(s, r); }
    } else if r.DoIdentify? {
      if IdentifyProjects(s.fleet, r.id, r.names, r.drawn).Some? {
        IdentifyOnlyNames(s.fleet, r.id, r.names, r.drawn);
        NamesLeaveAccess(s.fleet, IdentifyProjects(s.fleet, r.id, r.names, r.drawn).value.fleet, r.id,
                         s.fleet.credentials[r.id].agentId);
      }
    }
  }

  lemma NamesLeaveAccess(f: F.Fleet, g: F.Fleet, id: Uuid, agentId: Uuid)
    requires OnlyNames(f, g, id, agentId)
    ensures g == f.(projects := g.projects)
  {
  }

  lemma HeartbeatLeavesAccess(s: Moment, r: Request)
    requires Inv(s) && r.DoObserve? && Effect(s.fleet, r).Some?
    ensures var g := Effect(s.fleet, r).value;
            && g.tokens == s.fleet.tokens && g.credentials == s.fleet.credentials
            && r.id in s.fleet.sessions && r.id in s.fleet.environments
            && var n := s.fleet.sessions[r.id].sequence;
            && g.sessions == s.fleet.sessions[r.id := Session(r.agentId, r.sessionId, r.now + 30_000,
                                                              if r.sequence > n then r.sequence else n)]
            && g.environments == s.fleet.environments[r.id :=
                                   s.fleet.environments[r.id].(connection := Online, lastContact := Some(r.now))]
  {
    hide Inv, ReceiveObservation, ValidInventory, Shown, Ready, Effect;
    ObserveBeats(s, r);
    InvIsReady(s, r.id);
    if r.sequence > s.fleet.sessions[r.id].sequence {
      ReceiveLeavesSessions(s.fleet, r.id, r.sessionId, r.v, r.now);
    }
  }

  lemma AccessStep(s: Moment, r: Request, id: Uuid)
    requires Inv(s) && Admissible(s, r)
    ensures var (t, f, g) := (Next(s, r), s.fleet, Next(s, r).fleet);
            if Took(s, r, t, id) && Issues(r) then id in g.tokens && g.tokens[id] == Token(r.verifier, r.now + 600_000)
            else if Took(s, r, t, id) && (r.DoEnroll? || r.DoRevoke?) then id !in g.tokens
            else (id in g.tokens <==> id in f.tokens) && (id in g.tokens ==> g.tokens[id] == f.tokens[id])
    ensures var (t, f, g) := (Next(s, r), s.fleet, Next(s, r).fleet);
            if Took(s, r, t, id) && r.DoEnroll? then
              id in g.credentials && g.credentials[id] == Credential(r.agentId, r.credential)
            else if Took(s, r, t, id) && r.DoRevoke? then id !in g.credentials
            else (id in g.credentials <==> id in f.credentials)
                 && (id in g.credentials ==> g.credentials[id] == f.credentials[id])
  {
    if r.DoObserve? || r.DoIdentify? || r.DoCommand? {
      hide Inv, Next;
      OthersLeaveAccess(s, r);
    } else {
      hide Inv, L.InvalidateEnvironment;
    }
  }

  /** Request j issued this token to the environment, and nothing replaced, redeemed or revoked it before moment k. */
  ghost predicate IssuedAt(
    moments: seq<Moment>, requests: seq<Request>, j: nat, k: nat, id: Uuid, verifier: nat)
    requires |moments| == |requests| + 1
  {
    && j < k <= |requests| && Issues(requests[j]) && requests[j].verifier == verifier
    && Took(moments[j], requests[j], moments[j + 1], id)
    && forall i :: j < i < k && Took(moments[i], requests[i], moments[i + 1], id) ==> requests[i].DoOpen?
  }

  /** A token is out exactly as it was issued, and for ten minutes from then. */
  lemma {:induction false} TokensAreIssued(moments: seq<Moment>, requests: seq<Request>, k: nat, id: Uuid)
    requires Running(moments, requests) && k < |moments|
    ensures var f := moments[k].fleet;
            && (id in f.tokens ==>
                  exists j: nat :: IssuedAt(moments, requests, j, k, id, f.tokens[id].verifier)
                              && f.tokens[id].expiresAt == requests[j].now + 600_000)
            && (forall j: nat, verifier :: IssuedAt(moments, requests, j, k, id, verifier) ==>
                  id in f.tokens && f.tokens[id] == Token(verifier, requests[j].now + 600_000))
  {
    hide Inv, Admissible, Next, Took;
    if k == 0 {
      NothingIssued(moments, requests);
    } else {
      TokensAreIssued(moments, requests, k - 1, id);
      RunKeepsInv(moments, requests, k - 1);
      var (s, r) := (moments[k - 1], requests[k - 1]);
      assert Admissible(s, r) && moments[k] == Next(s, r);
      AccessStep(s, r, id);
      var f := moments[k].fleet;
      if id in f.tokens {
        if Took(s, r, moments[k], id) && Issues(r) {
          assert IssuedAt(moments, requests, k - 1, k, id, f.tokens[id].verifier);
        } else {
          var j: nat :| IssuedAt(moments, requests, j, k - 1, id, f.tokens[id].verifier)
                   && f.tokens[id].expiresAt == requests[j].now + 600_000;
          OnlyOpens(s, r, moments[k], id);
          assert IssuedAt(moments, requests, j, k, id, f.tokens[id].verifier);
        }
      }
      forall j: nat, verifier | IssuedAt(moments, requests, j, k, id, verifier)
        ensures id in f.tokens && f.tokens[id] == Token(verifier, requests[j].now + 600_000)
      {
        if j < k - 1 { assert IssuedAt(moments, requests, j, k - 1, id, verifier); }
      }
    }
  }

  lemma NothingIssued(moments: seq<Moment>, requests: seq<Request>)
    requires Running(moments, requests)
    ensures moments[0].fleet.tokens == map[] && moments[0].fleet.credentials == map[]
            && moments[0].fleet.sessions == map[]
  {
  }

  lemma OnlyOpens(s: Moment, r: Request, t: Moment, id: Uuid)
    requires Took(s, r, t, id) ==> !Issues(r) && !r.DoEnroll? && !r.DoRevoke?
    ensures Took(s, r, t, id) ==> r.DoOpen?
  {
  }

  lemma RedeemingDecided(s: Moment, r: Request)
    requires Inv(s) && Admissible(s, r) && r.DoEnroll?
    ensures Next(s, r) != s <==>
              && r.id in s.fleet.tokens && s.fleet.tokens[r.id].verifier == r.verifier
              && r.now < s.fleet.tokens[r.id].expiresAt
    ensures Next(s, r) != s <==> Took(s, r, Next(s, r), r.id)
  {
    assert EnvironmentInv(s.fleet, r.id);
    if Effect(s.fleet, r).Some? { assert Next(s, r).history.redeemed != s.history.redeemed; }
  }

  /** In every run, an enrollment is taken if and only if its token was issued to the environment less than ten
      minutes before and was not replaced, redeemed or revoked since; it then issues exactly its credential. */
  lemma EnrollmentDecided(moments: seq<Moment>, requests: seq<Request>, k: nat)
    requires Running(moments, requests) && k < |requests| && requests[k].DoEnroll?
    ensures var r := requests[k];
            && (moments[k + 1] != moments[k] <==>
                  exists j: nat ::
                    IssuedAt(moments, requests, j, k, r.id, r.verifier) && r.now < requests[j].now + 600_000)
            && (moments[k + 1] != moments[k] ==>
                  && r.id in moments[k + 1].fleet.credentials && r.id !in moments[k + 1].fleet.tokens
                  && moments[k + 1].fleet.credentials[r.id] == Credential(r.agentId, r.credential))
  {
    hide Inv, Admissible, Next, Took, IssuedAt;
    var (s, r) := (moments[k], requests[k]);
    RunKeepsInv(moments, requests, k);
    assert Admissible(s, r) && moments[k + 1] == Next(s, r);
    TokensAreIssued(moments, requests, k, r.id);
    RedeemingDecided(s, r);
    AccessStep(s, r, r.id);
  }

  // ----- sessions -----

  /** Until when the session of an environment lives: thirty seconds from its opening or its last heartbeat,
      and no longer than a restart. */
  ghost function LiveUntil(moments: seq<Moment>, requests: seq<Request>, k: nat, id: Uuid): Option<int>
    requires |moments| == |requests| + 1 && k < |moments|
  {
    if k == 0 then None
    else
      var (s, r, before) := (moments[k - 1], requests[k - 1], LiveUntil(moments, requests, k - 1, id));
      if r.DoOpen? && Took(s, r, moments[k], id) then Some(r.now + 30_000)
      else if r.DoObserve? && r.id == id && Effect(s.fleet, r).Some? then Some(r.now + 30_000)
      else if r.DoRevoke? && Took(s, r, moments[k], id) then None
      else if r.DoRestart? && before.Some? then Some(r.now)
      else before
  }

  lemma SessionStep(s: Moment, r: Request, id: Uuid)
    requires Inv(s) && Admissible(s, r)
    ensures var (t, f, g) := (Next(s, r), s.fleet, Next(s, r).fleet);
            if r.DoOpen? && Took(s, r, t, id) then
              id in g.sessions && g.sessions[id] == Session(r.agentId, r.sessionId, r.now + 30_000, -1)
            else if r.DoObserve? && r.id == id && Effect(f, r).Some? then
              && id in f.sessions && id in g.sessions && f.sessions[id].agentId == g.sessions[id].agentId == r.agentId
              && f.sessions[id].sessionId == g.sessions[id].sessionId == r.sessionId
              && g.sessions[id].expiresAt == r.now + 30_000
            else if r.DoRevoke? && Took(s, r, t, id) then id !in g.sessions
            else
              && (id in g.sessions <==> id in f.sessions)
              && (id in g.sessions ==> g.sessions[id] == f.sessions[id].(
                    expiresAt := if r.DoRestart? then r.now else f.sessions[id].expiresAt))
  {
    if r.DoObserve? {
      hide Inv, Effect;
      if Effect(s.fleet, r).Some? {
        HeartbeatLeavesAccess(s, r);
        HeartbeatIsCurrent(s, r);
      }
    } else if r.DoIdentify? || r.DoCommand? {
      hide Inv, Next;
      OthersLeaveAccess(s, r);
    } else {
      hide Inv, L.InvalidateEnvironment;
    }
  }

  lemma HeartbeatIsCurrent(s: Moment, r: Request)
    requires r.DoObserve? && Effect(s.fleet, r).Some?
    ensures r.id in s.fleet.sessions && r.id in s.fleet.credentials
    ensures s.fleet.sessions[r.id].agentId == r.agentId && s.fleet.sessions[r.id].sessionId == r.sessionId
    ensures s.fleet.credentials[r.id] == Credential(r.agentId, r.credential) && r.now < s.fleet.sessions[r.id].expiresAt
  {
    hide ReceiveObservation, ValidInventory;
  }

  /** A session row is there and lives exactly as the requests before tell. */
  lemma {:induction false} SessionsLive(moments: seq<Moment>, requests: seq<Request>, k: nat, id: Uuid)
    requires Running(moments, requests) && k < |moments|
    ensures var f := moments[k].fleet;
            LiveUntil(moments, requests, k, id) == if id in f.sessions then Some(f.sessions[id].expiresAt) else None
  {
    hide Inv, Admissible, Next, Took, Effect;
    if k == 0 {
      NothingIssued(moments, requests);
    } else {
      SessionsLive(moments, requests, k - 1, id);
      RunKeepsInv(moments, requests, k - 1);
      assert Admissible(moments[k - 1], requests[k - 1]) && moments[k] == Next(moments[k - 1], requests[k - 1]);
      SessionStep(moments[k - 1], requests[k - 1], id);
    }
  }

  lemma OpensDecided(s: Moment, r: Request)
    requires Inv(s) && Admissible(s, r) && r.DoOpen?
    ensures Next(s, r) != s <==>
              && r.id in s.fleet.credentials && s.fleet.credentials[r.id] == Credential(r.agentId, r.credential)
              && (r.id in s.fleet.sessions ==> s.fleet.sessions[r.id].expiresAt <= r.now)
  {
    assert EnvironmentInv(s.fleet, r.id);
    if Effect(s.fleet, r).Some? { assert Next(s, r).history.sessionIds != s.history.sessionIds; }
  }

  /** In every run, a session is opened if and only if the credential is the one in force and no session of the
      environment lives. */
  lemma OpeningDecided(moments: seq<Moment>, requests: seq<Request>, k: nat)
    requires Running(moments, requests) && k < |requests| && requests[k].DoOpen?
    ensures var (f, r, live) := (moments[k].fleet, requests[k], LiveUntil(moments, requests, k, requests[k].id));
            moments[k + 1] != moments[k] <==>
              && r.id in f.credentials && f.credentials[r.id] == Credential(r.agentId, r.credential)
              && (live.Some? ==> live.value <= r.now)
  {
    hide Inv, Admissible, Next, Took, LiveUntil;
    RunKeepsInv(moments, requests, k);
    assert Admissible(moments[k], requests[k]) && moments[k + 1] == Next(moments[k], requests[k]);
    SessionsLive(moments, requests, k, requests[k].id);
    OpensDecided(moments[k], requests[k]);
  }

  /** In every run, a heartbeat that is taken is the live session's own, under the credential in force; a repeated
      one of it is always taken, and then nothing but the session and the contact are renewed. */
  lemma HeartbeatDecided(moments: seq<Moment>, requests: seq<Request>, k: nat)
    requires Running(moments, requests) && k < |requests| && requests[k].DoObserve?
    ensures var (f, r, live) := (moments[k].fleet, requests[k], LiveUntil(moments, requests, k, requests[k].id));
            var current := && r.id in f.credentials && f.credentials[r.id] == Credential(r.agentId, r.credential)
                           && r.id in f.sessions && f.sessions[r.id].agentId == r.agentId
                           && f.sessions[r.id].sessionId == r.sessionId && live.Some? && r.now < live.value;
            && (Effect(f, r).Some? ==> current && ValidInventory(r.v))
            && (current && ValidInventory(r.v) && r.sequence <= f.sessions[r.id].sequence ==>
                  && Effect(f, r).Some? && moments[k + 1].fleet.projects == f.projects
                  && moments[k + 1].fleet.ledger == f.ledger && r.id in moments[k + 1].fleet.sessions
                  && moments[k + 1].fleet.sessions[r.id].sequence == f.sessions[r.id].sequence)
  {
    hide Inv, Admissible, Next, Took, LiveUntil, Effect, ValidInventory;
    RunKeepsInv(moments, requests, k);
    assert Admissible(moments[k], requests[k]) && moments[k + 1] == Next(moments[k], requests[k]);
    SessionsLive(moments, requests, k, requests[k].id);
    if Effect(moments[k].fleet, requests[k]).Some? {
      HeartbeatIsCurrent(moments[k], requests[k]);
      TakenIsValid(moments[k], requests[k]);
    }
    var (f, r) := (moments[k].fleet, requests[k]);
    if ValidInventory(r.v) && r.id in f.credentials && f.credentials[r.id] == Credential(r.agentId, r.credential)
       && r.id in f.sessions && f.sessions[r.id].agentId == r.agentId && f.sessions[r.id].sessionId == r.sessionId
       && r.now < f.sessions[r.id].expiresAt && r.sequence <= f.sessions[r.id].sequence
    {
      RepeatsDecided(moments[k], r);
    }
  }

  lemma TakenIsValid(s: Moment, r: Request)
    requires r.DoObserve? && Effect(s.fleet, r).Some?
    ensures ValidInventory(r.v)
  {
    hide ReceiveObservation, ValidInventory;
  }

  lemma RepeatsDecided(s: Moment, r: Request)
    requires Inv(s) && Admissible(s, r) && r.DoObserve? && ValidInventory(r.v)
    requires r.id in s.fleet.credentials && s.fleet.credentials[r.id] == Credential(r.agentId, r.credential)
    requires r.id in s.fleet.sessions && s.fleet.sessions[r.id].agentId == r.agentId
    requires s.fleet.sessions[r.id].sessionId == r.sessionId && r.now < s.fleet.sessions[r.id].expiresAt
    requires r.sequence <= s.fleet.sessions[r.id].sequence
    ensures var g := Next(s, r).fleet;
            && Effect(s.fleet, r).Some? && g.projects == s.fleet.projects && g.ledger == s.fleet.ledger
            && r.id in g.sessions && g.sessions[r.id].sequence == s.fleet.sessions[r.id].sequence
  {
    hide ReceiveObservation, ValidInventory;
    assert EnvironmentInv(s.fleet, r.id);
  }

  // ----- connections -----

  datatype Standing = Standing(enrolled: bool, connection: Connection, contact: Option<int>)

  /** How an environment stands, told from the requests before: a heartbeat brings it online; an opening, a revocation,
      a restart, or a sweep after its session ran out, do not leave it there. */
  ghost function StandsAs(moments: seq<Moment>, requests: seq<Request>, k: nat, id: Uuid): Option<Standing>
    requires |moments| == |requests| + 1 && k < |moments|
  {
    if k == 0 then None
    else
      var (s, r, before) := (moments[k - 1], requests[k - 1], StandsAs(moments, requests, k - 1, id));
      var live := LiveUntil(moments, requests, k - 1, id);
      if Issues(r) && Took(s, r, moments[k], id) then Some(Standing(false, AwaitingSignal, None))
      else if r.DoEnroll? && Took(s, r, moments[k], id) then Some(Standing(true, AwaitingSignal, None))
      else if r.DoObserve? && r.id == id && Effect(s.fleet, r).Some? then Some(Standing(true, Online, Some(r.now)))
      else if before.None? then None
      else if r.DoRevoke? && Took(s, r, moments[k], id) then Some(Standing(false, Offline, before.value.contact))
      else if r.DoOpen? && Took(s, r, moments[k], id) then
        Some(before.value.(connection := if before.value.contact.None? then AwaitingSignal else Offline))
      else if before.value.enrolled && before.value.contact.Some?
              && (r.DoRestart? || (r.DoExpire? && live.Some? && live.value <= r.now)) then
        Some(before.value.(connection := Offline))
      else before
  }

  function StandingOf(f: F.Fleet, id: Uuid): Option<Standing> {
    if id !in f.environments then None
    else Some(Standing(f.environments[id].enrollment == Enrolled, f.environments[id].connection,
                       f.environments[id].lastContact))
  }

  lemma StandingStep(s: Moment, r: Request, id: Uuid)
    requires Inv(s) && Admissible(s, r)
    ensures var (t, f, before) := (Next(s, r), s.fleet, StandingOf(s.fleet, id));
            StandingOf(t.fleet, id)
            == if Issues(r) && Took(s, r, t, id) then Some(Standing(false, AwaitingSignal, None))
               else if r.DoEnroll? && Took(s, r, t, id) then Some(Standing(true, AwaitingSignal, None))
               else if r.DoObserve? && r.id == id && Effect(f, r).Some? then Some(Standing(true, Online, Some(r.now)))
               else if before.None? then None
               else if r.DoRevoke? && Took(s, r, t, id) then Some(Standing(false, Offline, before.value.contact))
               else if r.DoOpen? && Took(s, r, t, id) then
                 Some(before.value.(connection := if before.value.contact.None? then AwaitingSignal else Offline))
               else if before.value.enrolled && before.value.contact.Some?
                       && (r.DoRestart? || (r.DoExpire? && id in f.sessions && f.sessions[id].expiresAt <= r.now)) then
                 Some(before.value.(connection := Offline))
               else before
  {
    if r.DoObserve? {
      hide Inv, Effect;
      if Effect(s.fleet, r).Some? {
        HeartbeatLeavesAccess(s, r);
        HeartbeatIsEnrolled(s, r);
      }
    } else if r.DoIdentify? || r.DoCommand? {
      hide Inv, Next;
      OthersLeaveAccess(s, r);
    } else {
      hide Inv, L.InvalidateEnvironment;
    }
  }

  lemma HeartbeatIsEnrolled(s: Moment, r: Request)
    requires r.DoObserve? && Effect(s.fleet, r).Some?
    ensures r.id in s.fleet.environments && s.fleet.environments[r.id].enrollment == Enrolled
  {
    hide ReceiveObservation, ValidInventory;
  }

  /** In every run, enrollment, connection and last contact of an environment are what the requests before tell. */
  lemma {:induction false} ConnectionsStand(moments: seq<Moment>, requests: seq<Request>, k: nat, id: Uuid)
    requires Running(moments, requests) && k < |moments|
    ensures StandsAs(moments, requests, k, id) == StandingOf(moments[k].fleet, id)
  {
    hide Inv, Admissible, Next, Took, Effect, StandingOf, LiveUntil;
    if k == 0 {
      NoneStands(moments, requests, id);
    } else {
      ConnectionsStand(moments, requests, k - 1, id);
      SessionsLive(moments, requests, k - 1, id);
      RunKeepsInv(moments, requests, k - 1);
      assert Admissible(moments[k - 1], requests[k - 1]) && moments[k] == Next(moments[k - 1], requests[k - 1]);
      StandingStep(moments[k - 1], requests[k - 1], id);
    }
  }

  lemma NoneStands(moments: seq<Moment>, requests: seq<Request>, id: Uuid)
    requires Running(moments, requests)
    ensures StandingOf(moments[0].fleet, id).None?
  {
  }

  lemma {:induction false} OnlineHasSession(moments: seq<Moment>, requests: seq<Request>, k: nat, id: Uuid)
    requires Running(moments, requests) && k < |moments|
    ensures Shines(moments[k].fleet, id) ==> id in moments[k].fleet.sessions
  {
    hide Inv, Admissible, Next, Took, Effect;
    if k == 0 {
      NoneStands(moments, requests, id);
    } else {
      OnlineHasSession(moments, requests, k - 1, id);
      RunKeepsInv(moments, requests, k - 1);
      assert Admissible(moments[k - 1], requests[k - 1]) && moments[k] == Next(moments[k - 1], requests[k - 1]);
      StandingStep(moments[k - 1], requests[k - 1], id);
      SessionStep(moments[k - 1], requests[k - 1], id);
    }
  }

  /** After a sweep, an environment is online if and only if it was, and its session still lives; after a restart none
      is. */
  lemma SweepsDecide(moments: seq<Moment>, requests: seq<Request>, k: nat, id: Uuid)
    requires Running(moments, requests) && k < |requests| && (requests[k].DoExpire? || requests[k].DoRestart?)
    ensures var live := LiveUntil(moments, requests, k, id);
            Shines(moments[k + 1].fleet, id) <==>
              Shines(moments[k].fleet, id) && requests[k].DoExpire? && live.Some? && requests[k].now < live.value
  {
    hide Admissible, Next, LiveUntil, StandsAs;
    var (s, r) := (moments[k], requests[k]);
    RunKeepsInv(moments, requests, k);
    OnlineHasSession(moments, requests, k, id);
    assert Admissible(s, r) && moments[k + 1] == Next(s, r);
    SessionsLive(moments, requests, k, id);
    StandingStep(s, r, id);
    assert EnvironmentInv(s.fleet, id);
  }

  predicate Shines(f: F.Fleet, id: Uuid) { id in f.environments && f.environments[id].connection == Online }
}
