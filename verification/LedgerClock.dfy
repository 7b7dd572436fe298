/**
 Under a clock that never runs backwards, saving refuses exactly one kind of
 step: a claim judged before its deadline and stamped after it.
 */
module LedgerClock {
  import opened Prelude
  import opened Wire
  import opened Ledger
  import opened LedgerProofs
  import Json

  function FirstReading(q: Request): int {
    match q
    case DoClaim(_, _, _, _, seen, _) => seen
    case _ => q.now
  }

  function LastReading(q: Request): int {
    match q
    case DoClaim(_, _, _, _, _, stamp) => stamp
    case _ => q.now
  }

  /** No row was written later than t. */
  ghost predicate Stamped(l: Ledger, t: int) {
    forall id :: id in l.rows ==>
      l.rows[id].command.submittedAt <= t && (l.rows[id].claimedAt.Some? ==> l.rows[id].claimedAt.value <= t)
  }

  ghost predicate Monotone(requests: seq<Request>) {
    && (forall k :: 0 <= k < |requests| ==> FirstReading(requests[k]) <= LastReading(requests[k]))
    && (forall k :: 0 < k < |requests| ==> LastReading(requests[k - 1]) <= FirstReading(requests[k]))
  }

  /** The transaction rolls back because a row breaks its schema. */
  ghost predicate Refused(l: Ledger, q: Request) {
    match q
    case DoSubmit(id, projectId, key, operation, peers, now) =>
      Submit(l, id, projectId, key, operation, peers, now).1 == Err(SchemaViolation)
    case DoClaim(who, id, verified, target, seen, stamp) =>
      Claim(l, who, id, verified, target, seen, stamp).1 == Err(SchemaViolation)
    case DoPublish(who, result, verified, now) => Publish(l, who, result, verified, now).1 == Err(SchemaViolation)
    case _ => false
  }

  /** The claim passes every check: its caller, its session, its target and its deadline as first read. */
  predicate Claimable(l: Ledger, q: Request) {
    && q.DoClaim? && q.verified && q.id in l.rows
    && var r := l.rows[q.id];
    && r.command.environmentId == q.who.environmentId && r.command.sessionId == q.who.sessionId
    && r.state == Accepted && q.seen < r.command.expiresAt
    && q.target.Some? && q.target.value.managed
    && q.target.value.environmentId == r.command.environmentId
    && q.target.value.localProjectId == r.command.localProjectId
  }

  lemma SavingRefusesOnlyLateStamps(l: Ledger, q: Request, t: int)
    requires Valid(l) && Stamped(l, t) && t <= FirstReading(q) <= LastReading(q) && Admissible(l, q)
    ensures Refused(l, q) <==> Claimable(l, q) && l.rows[q.id].command.expiresAt < q.stamp
  {
    match q
    case DoSubmit(id, projectId, key, operation, peers, now) =>
      SubmitCases(l, id, projectId, key, operation, peers, now);
      assert Recover(l, now).rows.Keys == l.rows.Keys;
    case _ =>
  }

  lemma SubmitStamped(l: Ledger, q: Request, t: int)
    requires Valid(l) && Stamped(l, t) && q.DoSubmit? && t <= q.now && Admissible(l, q)
    ensures Stamped(Next(l, q), q.now)
  {
    hide ValidRecord, TargetRefusal;
    SubmitCases(l, q.id, q.projectId, q.key, q.operation, q.peers, q.now);
  }

  lemma ClaimStamped(l: Ledger, q: Request, t: int)
    requires Valid(l) && Stamped(l, t) && q.DoClaim? && t <= q.seen <= q.stamp
    ensures Stamped(Next(l, q), q.stamp)
  {
    hide ValidRecord;
  }

  lemma NextStamped(l: Ledger, q: Request, t: int)
    requires Valid(l) && Stamped(l, t) && t <= FirstReading(q) <= LastReading(q) && Admissible(l, q)
    ensures Stamped(Next(l, q), LastReading(q))
  {
    hide Next, Valid, Admissible;
    if q.DoSubmit? {
      SubmitStamped(l, q, t);
    } else if q.DoClaim? {
      ClaimStamped(l, q, t);
    } else {
      ClaimTimesKept(l, q);
    }
  }

  /** The later ledger shows no other command and no other claim time. */
  ghost predicate SameTimes(l: Ledger, m: Ledger) {
    forall id :: id in m.rows ==>
      id in l.rows && m.rows[id].claimedAt == l.rows[id].claimedAt && m.rows[id].command == l.rows[id].command
  }

  lemma AgentTimesKept(l: Ledger, q: Request)
    requires Valid(l) && (q.DoPublish? || q.DoTransfer?)
    ensures SameTimes(l, Next(l, q))
  {
    hide Json.Print, Json.Normal, ValidRecord, Reports;
  }

  lemma OperatorTimesKept(l: Ledger, q: Request)
    requires Valid(l) && (q.DoGet? || q.DoClose? || q.DoRecover? || q.DoPrune?)
    ensures SameTimes(l, Next(l, q))
  {
    hide ValidRecord;
    match q
    case DoPrune(now) => assert SameTimes(l, Recover(l, now));
    case _ =>
  }

  /** Only a claim sets a claim time. */
  lemma ClaimTimesKept(l: Ledger, q: Request)
    requires Valid(l) && !q.DoSubmit? && !q.DoClaim?
    ensures SameTimes(l, Next(l, q))
  {
    hide Get, Close, Recover, Prune, Publish, Transfer, ValidRecord;
    if q.DoPublish? || q.DoTransfer? {
      AgentTimesKept(l, q);
    } else if q.DoGet? || q.DoClose? || q.DoRecover? || q.DoPrune? {
      OperatorTimesKept(l, q);
    }
  }

  lemma {:induction false} RunStamped(requests: seq<Request>)
    requires requests != [] && AdmissibleRun(requests) && Monotone(requests)
    ensures Stamped(Run(requests), LastReading(requests[|requests| - 1]))
  {
    var n := |requests| - 1;
    RunPrefix(requests, n);
    RunKeeps(requests[..n]);
    if n == 0 {
      assert Run(requests[..n]) == EMPTY;
      NextStamped(EMPTY, requests[n], FirstReading(requests[n]));
    } else {
      RunStamped(requests[..n]);
      NextStamped(Run(requests[..n]), requests[n], LastReading(requests[n - 1]));
    }
  }

  lemma RunPrefix(requests: seq<Request>, n: nat)
    requires n <= |requests| && AdmissibleRun(requests)
    ensures AdmissibleRun(requests[..n])
    ensures Monotone(requests) ==> Monotone(requests[..n])
  {
    forall k | 0 <= k < n ensures Admissible(Run(requests[..n][..k]), requests[..n][k]) {
      assert requests[..n][..k] == requests[..k];
    }
  }

  /** In every run under a monotone clock, the schema refuses a save exactly when a claim straddles its deadline. */
  lemma RunsRefuseOnlyLateStamps(requests: seq<Request>, k: nat)
    requires AdmissibleRun(requests) && Monotone(requests) && k < |requests|
    ensures var (l, q) := (Run(requests[..k]), requests[k]);
            Refused(l, q) <==> Claimable(l, q) && l.rows[q.id].command.expiresAt < q.stamp
  {
    RunPrefix(requests, k);
    RunKeeps(requests[..k]);
    if k == 0 {
      assert requests[..k] == [];
      SavingRefusesOnlyLateStamps(EMPTY, requests[k], FirstReading(requests[k]));
    } else {
      RunStamped(requests[..k]);
      SavingRefusesOnlyLateStamps(Run(requests[..k]), requests[k], LastReading(requests[k - 1]));
    }
  }

  // ----- a run that meets the refusal -----

  const TARGET := Target(7, "project", 8, 9, true, true, true, true)
  const SUBMISSION := DoSubmit(1, 2, "key", Start, Peers(Some(TARGET), true, Some(8)), 0)
  const LATE_CLAIM :=
    DoClaim(Identity(7, 8, 9), 1, true, Some(TARGET), CLAIM_LIFETIME_MS - 1, CLAIM_LIFETIME_MS + 1)

  /** A claim judged in time and stamped late is refused, and the command stays accepted past its deadline. */
  lemma ALateStampIsRefused()
    ensures AdmissibleRun([SUBMISSION, LATE_CLAIM]) && Monotone([SUBMISSION, LATE_CLAIM])
    ensures var l := Run([SUBMISSION]);
            && Refused(l, LATE_CLAIM) && Next(l, LATE_CLAIM) == l
            && 1 in l.rows && l.rows[1].state == Accepted && l.rows[1].command.expiresAt < LATE_CLAIM.stamp
  {
    var requests := [SUBMISSION, LATE_CLAIM];
    assert [SUBMISSION][..0] == [] && requests[..0] == [] && requests[..1] == [SUBMISSION];
    assert Run([SUBMISSION]) == Next(EMPTY, SUBMISSION);
    SubmitCases(EMPTY, 1, 2, "key", Start, SUBMISSION.peers, 0);
    assert Recover(EMPTY, 0).rows == map[];
    assert WithKey(EMPTY, "key") == {} && ActiveFor(Recover(EMPTY, 0), 2) == {} && ActiveIn(Recover(EMPTY, 0), 7) == {};
  }
}
