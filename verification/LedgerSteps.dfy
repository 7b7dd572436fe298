/** Every step of the ledger keeps the joint invariant. */
module LedgerSteps {
  import opened Prelude
  import opened Wire
  import opened World
  import opened LedgerProofs
  import opened Invariants
  import Json
  import L = Ledger

  /** `latest` are the last versions of the rows: those the ledger keeps and those it drops for good. */
  ghost predicate LedgerMove(w: World, latest: map<Uuid, Record>, l: L.Ledger) {
    && Valid(l)
    && w.ledger.rows.Keys <= latest.Keys
    && (forall id :: id in latest ==> ValidRecord(latest[id]) && latest[id].command.commandId == id)
    && (forall id :: id in latest && id in w.ledger.rows ==> Evolves(w.ledger.rows[id], latest[id]))
    && (forall id :: id in latest && id !in w.ledger.rows ==> id !in w.history && latest[id].state == Accepted)
    && (forall id :: id in l.rows ==> id in latest && l.rows[id] == latest[id])
    && (forall id :: id in latest && id !in l.rows ==> Settled(latest[id].state))
  }

  /** Whoever became an owner in this step is a host of the command's environment. */
  ghost predicate OwnersKnown(w: World, latest: map<Uuid, Record>) {
    forall id :: id in latest && latest[id].owner.Some? ==>
      || (id in w.ledger.rows && w.ledger.rows[id].owner.Some?)
      || (&& latest[id].owner.value.agentId in w.hosts
          && w.hosts[latest[id].owner.value.agentId].environmentId == latest[id].command.environmentId)
  }

  /** An outcome that became terminal is the one its owner's journal holds. */
  ghost predicate OutcomesAgree(w: World, v: World, latest: map<Uuid, Record>)
    requires v.history == w.history + latest
  {
    forall id, agent :: id in latest && agent in v.hosts && OwnedBy(v, agent, id) && Terminal(latest[id].state) ==>
      (id in w.history && Terminal(w.history[id].state)) || Agrees(v, agent, id)
  }

  ghost predicate AnswersSound(w: World, v: World) {
    && w.answers <= v.answers
    && (forall request, record :: (request, Granted(record)) in v.answers ==> NewAnswer(w, v, request, record))
    && (forall request, answer :: (request, answer) in v.answers && (request, answer) !in w.answers ==>
          AnswerInv(v, request, answer))
  }

  lemma MoveIsLater(w: World, v: World, latest: map<Uuid, Record>, l: L.Ledger)
    requires Inv(w) && LedgerMove(w, latest, l) && v.history == w.history + latest
    requires v.requests == w.requests && w.answers <= v.answers && v.hosts == w.hosts
    ensures Later(w, v)
  {
    forall id | id in w.history ensures id in v.history && Evolves(w.history[id], v.history[id]) {
      assert IdInv(w, id);
      if id !in latest { SelfEvolves(w.history[id]); }
    }
  }

  lemma SelfEvolves(r: Record)
    requires ValidRecord(r)
    ensures Evolves(r, r)
  {
  }

  lemma MoveKeepsIds(w: World, v: World, latest: map<Uuid, Record>, l: L.Ledger, id: Uuid)
    requires Inv(w) && LedgerMove(w, latest, l) && OwnersKnown(w, latest)
    requires v.ledger == l && v.history == w.history + latest && v.hosts == w.hosts
    requires v.invocations == w.invocations && v.spawns == w.spawns && v.signals == w.signals
    ensures IdInv(v, id)
  {
    assert IdInv(w, id);
  }

  lemma AnswerKept(w: World, v: World, request: Uuid, answer: Answer)
    requires AnswerInv(w, request, answer) && Later(w, v)
    ensures AnswerInv(v, request, answer)
  {
    if answer.Granted? {
      EvolvesTransitive(answer.record, w.history[w.requests[request].id], v.history[w.requests[request].id]);
    }
  }

  /** One transaction of the ledger, and at most one answer to a request. */
  lemma MoveKeeps(w: World, v: World, latest: map<Uuid, Record>, l: L.Ledger)
    requires Inv(w) && LedgerMove(w, latest, l) && OwnersKnown(w, latest)
    requires v == w.(ledger := l, history := w.history + latest, answers := v.answers)
    requires OutcomesAgree(w, v, latest) && AnswersSound(w, v)
    ensures Inv(v) && Later(w, v)
  {
    hide IdInv, HostInv, RequestInv, AnswerInv, LedgerMove, NewAnswer, Later, Agrees, OwnedBy;
    MoveIsLater(w, v, latest, l);
    assert Valid(l) by { ValidMove(w, latest, l); }
    forall id ensures IdInv(v, id) { MoveKeepsIds(w, v, latest, l, id); }
    forall agent, id | agent in v.hosts ensures HostInv(v, agent, id) {
      StillHolds(w, v, latest, l, agent, id);
    }
    forall request | request in v.requests ensures RequestInv(v, request) { RequestUnmoved(w, v, request); }
    forall request, answer | (request, answer) in v.answers ensures AnswerInv(v, request, answer) {
      if (request, answer) in w.answers { AnswerKept(w, v, request, answer); }
    }
    forall c | c in v.deliveries ensures c.commandId in v.history && v.history[c.commandId].command == c {
      DeliveryKept(w, v, c);
    }
  }

  lemma ValidMove(w: World, latest: map<Uuid, Record>, l: L.Ledger)
    requires LedgerMove(w, latest, l)
    ensures Valid(l)
  {
  }

  lemma DeliveryKept(w: World, v: World, c: Command)
    requires Later(w, v) && c.commandId in w.history && w.history[c.commandId].command == c
    ensures c.commandId in v.history && v.history[c.commandId].command == c
  {
  }

  lemma RequestUnmoved(w: World, v: World, request: Uuid)
    requires request in w.requests && RequestInv(w, request) && v.requests == w.requests && v.hosts == w.hosts
    ensures RequestInv(v, request)
  {
  }

  lemma StillHolds(w: World, v: World, latest: map<Uuid, Record>, l: L.Ledger, agent: Uuid, id: Uuid)
    requires Inv(w) && Later(w, v) && agent in w.hosts
    requires v == w.(ledger := l, history := w.history + latest, answers := v.answers)
    requires OutcomesAgree(w, v, latest) && AnswersSound(w, v)
    ensures HostInv(v, agent, id)
  {
    hide HostInv, Agrees, NewAnswer;
    assert HostInv(w, agent, id) && IdInv(w, id);
    assert Framed(w.hosts[agent], v.hosts[agent], id);
    if OwnedBy(v, agent, id) && Terminal(v.history[id].state) {
      if id in latest {
        if id in w.history && Terminal(w.history[id].state) { OwnerStays(w, v, agent, id); }
      }
    }
    HostKept(w, v, agent, id);
  }

  lemma OwnerStays(w: World, v: World, agent: Uuid, id: Uuid)
    requires IdInv(w, id) && Later(w, v) && OwnedBy(v, agent, id) && id in w.history && w.history[id].state != Accepted
    requires w.history[id].state != Expired
    ensures OwnedBy(w, agent, id)
  {
    assert Evolves(w.history[id], v.history[id]);
  }

  // ----- one lemma for each step -----

  lemma ShrinkIsMove(w: World, l: L.Ledger)
    requires Valid(w.ledger) && Valid(l) && Shrinks(w.ledger, l) && l.rows.Keys == w.ledger.rows.Keys
    ensures LedgerMove(w, l.rows, l)
  {
  }

  /** Operator and timer steps change no owner and report no outcome. */
  ghost predicate Reportless(l: L.Ledger, latest: map<Uuid, Record>) {
    forall id :: id in latest && id in l.rows ==>
      latest[id].owner == l.rows[id].owner && (Terminal(latest[id].state) ==> Terminal(l.rows[id].state))
  }

  lemma RecoverIsReportless(l: L.Ledger, now: int)
    ensures Reportless(l, L.Recover(l, now).rows)
  {
  }

  lemma GetIsReportless(l: L.Ledger, id: Uuid, now: int)
    ensures Reportless(l, L.Get(l, id, now).0.rows)
  {
  }

  lemma CloseIsReportless(l: L.Ledger, id: Uuid, reason: string, now: int)
    requires Valid(l)
    ensures Reportless(l, L.Close(l, id, reason, now).0.rows)
  {
    if id in l.rows { ExpireRowShrinks(l, id, now); }
  }

  lemma InvalidateIsReportless(l: L.Ledger, ids: set<Uuid>, now: int)
    ensures Reportless(l, L.Invalidate(l, ids, now).rows)
  {
  }

  lemma OperatorsAreReportless(l: L.Ledger, q: L.Request)
    requires Valid(l) && !q.DoClaim? && !q.DoPublish? && !q.DoTransfer? && !q.DoPrune? && !q.DoSubmit?
    ensures Reportless(l, L.Next(l, q).rows)
  {
    hide Reportless, L.Get, L.Close, L.Recover, L.Invalidate;
    match q
    case DoGet(id, now) => GetIsReportless(l, id, now);
    case DoClose(id, reason, now) => CloseIsReportless(l, id, reason, now);
    case DoRecover(now) => RecoverIsReportless(l, now);
    case DoInvalidateEnvironment(environmentId, now) =>
      InvalidateIsReportless(l, (set id | id in l.rows && l.rows[id].command.environmentId == environmentId), now);
    case DoInvalidateProject(projectId, now) =>
      InvalidateIsReportless(l, (set id | id in l.rows && l.rows[id].command.projectId == projectId), now);
  }

  /** No outcome became terminal, so there is nothing to agree on. */
  lemma QuietOutcomes(w: World, v: World, latest: map<Uuid, Record>, l: L.Ledger)
    requires LedgerMove(w, latest, l) && v.history == w.history + latest
    requires forall id :: id in w.ledger.rows ==> IdInv(w, id)
    requires forall id :: id in latest && id in w.ledger.rows && Terminal(latest[id].state) ==>
             Terminal(w.ledger.rows[id].state)
    ensures OutcomesAgree(w, v, latest)
  {
    hide Agrees;
  }

  lemma RowsInHistory(w: World)
    requires Inv(w)
    ensures forall id :: id in w.ledger.rows ==> IdInv(w, id)
  {
  }

  lemma ReportlessOwners(w: World, latest: map<Uuid, Record>, l: L.Ledger)
    requires LedgerMove(w, latest, l) && Reportless(w.ledger, latest)
    ensures OwnersKnown(w, latest)
  {
    assert forall id :: id in latest ==> ValidRecord(latest[id]);
  }

  lemma ReportlessMoveKeeps(w: World, latest: map<Uuid, Record>, l: L.Ledger)
    requires Inv(w) && LedgerMove(w, latest, l) && Reportless(w.ledger, latest)
    ensures Inv(WithLedger(w, latest, l)) && Later(w, WithLedger(w, latest, l))
  {
    hide Inv, LedgerMove, OutcomesAgree, OwnersKnown, NewAnswer, Later;
    var v := WithLedger(w, latest, l);
    assert v == w.(ledger := l, history := w.history + latest, answers := v.answers);
    ReportlessOwners(w, latest, l);
    RowsInHistory(w);
    QuietOutcomes(w, v, latest, l);
    assert AnswersSound(w, v) by { SameAnswers(w, v); }
    MoveKeeps(w, v, latest, l);
  }

  lemma SameAnswers(w: World, v: World)
    requires v.answers == w.answers
    ensures AnswersSound(w, v)
  {
  }

  lemma SubmitKeepsInv(w: World, q: L.Request)
    requires Inv(w) && q.DoSubmit? && q.id !in w.history
    ensures Inv(Operated(w, q)) && Later(w, Operated(w, q))
  {
    hide HostInv, RequestInv, AnswerInv, L.Recover, LedgerMove, Later;
    assert IdInv(w, q.id);
    SubmitCases(w.ledger, q.id, q.projectId, q.key, q.operation, q.peers, q.now);
    var l := L.Next(w.ledger, q);
    if l == w.ledger {
      StaysItself(l);
      ShrinkIsMove(w, l);
    } else {
      RecoverShrinks(w.ledger, q.now);
      RecoverIsReportless(w.ledger, q.now);
      SubmitMove(w, q, l);
    }
    ReportlessMoveKeeps(w, l.rows, l);
  }

  lemma SubmitMove(w: World, q: L.Request, l: L.Ledger)
    requires Valid(w.ledger) && q.DoSubmit? && q.id !in w.history && q.id !in w.ledger.rows && q.peers.target.Some?
    requires l == L.Store(L.Recover(w.ledger, q.now),
                          L.NewRecord(q.id, q.projectId, q.key, q.operation, q.peers.target.value, q.now),
                          L.Submitted, q.now)
    ensures LedgerMove(w, l.rows, l)
  {
    hide ValidRecord, Evolves, L.Recover;
    RecoverShrinks(w.ledger, q.now);
    NewRecordIsValid(q.id, q.projectId, q.key, q.operation, q.peers.target.value, q.now);
  }

  lemma PruneKeepsInv(w: World, now: int)
    requires Inv(w)
    ensures Inv(Operated(w, L.DoPrune(now))) && Later(w, Operated(w, L.DoPrune(now)))
  {
    hide HostInv, RequestInv, AnswerInv, L.Prune, L.Recover, Later;
    RecoverShrinks(w.ledger, now);
    PruneShrinks(w.ledger, now);
    RecoverIsReportless(w.ledger, now);
    ReportlessMoveKeeps(w, L.Recover(w.ledger, now).rows, L.Prune(w.ledger, now));
  }

  lemma OperateKeepsInv(w: World, q: L.Request)
    requires Inv(w) && Enabled(w, Operate(q))
    ensures Inv(Operated(w, q)) && Later(w, Operated(w, q))
  {
    hide Inv, L.Next, Later;
    assert Valid(w.ledger) by { ValidInv(w); }
    match q
    case DoSubmit(id, projectId, key, operation, peers, now) => SubmitKeepsInv(w, q);
    case DoPrune(now) => PruneKeepsInv(w, now);
    case _ =>
      NextShrinks(w.ledger, q);
      OperatorsAreReportless(w.ledger, q);
      ShrinkIsMove(w, L.Next(w.ledger, q));
      ReportlessMoveKeeps(w, L.Next(w.ledger, q).rows, L.Next(w.ledger, q));
  }

  lemma ValidInv(w: World)
    requires Inv(w)
    ensures Valid(w.ledger)
  {
  }

  lemma PollKeepsInv(w: World, id: Uuid)
    requires Inv(w) && Enabled(w, Poll(id))
    ensures Inv(w.(deliveries := w.deliveries + {w.ledger.rows[id].command}))
  {
    assert IdInv(w, id);
    var v := w.(deliveries := w.deliveries + {w.ledger.rows[id].command});
    forall k ensures IdInv(v, k) { assert IdInv(w, k); }
    forall agent, k | agent in v.hosts ensures HostInv(v, agent, k) { DeliveriesAside(w, v, agent, k); }
    forall request | request in v.requests ensures RequestInv(v, request) { RequestUnmoved(w, v, request); }
    forall request, answer | (request, answer) in v.answers ensures AnswerInv(v, request, answer) {
      assert AnswerInv(w, request, answer);
    }
  }

  lemma DeliveriesAside(w: World, v: World, agent: Uuid, id: Uuid)
    requires agent in w.hosts && HostInv(w, agent, id) && v == w.(deliveries := v.deliveries)
    ensures HostInv(v, agent, id)
  {
  }

  lemma ClaimOwner(w: World, request: Uuid, verified: bool, project: Option<L.Target>, seen: int, stamp: int)
    requires Valid(w.ledger) && request in w.requests && w.requests[request].ClaimMessage? && RequestInv(w, request)
    ensures var m := w.requests[request];
            var l := L.Claim(w.ledger, m.who, m.id, verified, project, seen, stamp).0;
            && OwnersKnown(w, l.rows)
            && forall id :: id in l.rows && id in w.ledger.rows && Terminal(l.rows[id].state) ==>
               l.rows[id] == w.ledger.rows[id]
  {
    hide ValidRecord, L.Expire;
    var r := w.requests[request].id;
    if r in w.ledger.rows { ExpireReports(w.ledger.rows[r], seen); }
  }

  lemma ExpireReports(r: Record, now: int)
    ensures L.Expire(r, now).owner == r.owner && L.Expire(r, now).command == r.command
    ensures Terminal(L.Expire(r, now).state) ==> L.Expire(r, now) == r
  {
  }

  /** The only new answer shows the claimed row, owned by its caller. */
  lemma ClaimAnswersSound(w: World, v: World, request: Uuid, answer: Answer)
    requires request in w.requests && w.requests[request].ClaimMessage? && v.requests == w.requests
    requires v.answers == w.answers + {(request, answer)}
    requires var m := w.requests[request];
             && m.id in v.history && ValidRecord(v.history[m.id]) && v.history[m.id].command.commandId == m.id
             && (answer == DeadlineElapsed || answer == Granted(v.history[m.id]))
             && (answer.DeadlineElapsed? ==> v.history[m.id].state == Expired)
             && (answer.Granted? ==> L.Owns(v.history[m.id], m.who))
    ensures AnswersSound(w, v)
  {
    SelfEvolves(v.history[w.requests[request].id]);
  }

  lemma ServeClaimKeepsInv(w: World, request: Uuid, verified: bool, project: Option<L.Target>, seen: int, stamp: int)
    requires Inv(w) && request in w.requests && w.requests[request].ClaimMessage?
    ensures Inv(ServedClaim(w, request, verified, project, seen, stamp))
            && Later(w, ServedClaim(w, request, verified, project, seen, stamp))
  {
    hide Inv, RequestInv, L.Claim, LedgerMove, OutcomesAgree, OwnersKnown, AnswersSound, IdInv, Evolves, ValidRecord,
      Later;
    var m := w.requests[request];
    var (l, reply) := L.Claim(w.ledger, m.who, m.id, verified, project, seen, stamp);
    assert Valid(w.ledger) && RequestInv(w, request) by { RequestOf(w, request); }
    ClaimShrinks(w.ledger, m.who, m.id, verified, project, seen, stamp);
    ClaimAnswers(w.ledger, m.who, m.id, verified, project, seen, stamp);
    ClaimOwner(w, request, verified, project, seen, stamp);
    ShrinkIsMove(w, l);
    RowsInHistory(w);
    var v := ServedClaim(w, request, verified, project, seen, stamp);
    assert v == w.(ledger := l, history := w.history + l.rows, answers := v.answers);
    QuietOutcomes(w, v, l.rows, l);
    assert AnswersSound(w, v) by {
      if reply.Ok? { ClaimAnswersSound(w, v, request, Granted(reply.value)); }
      else if reply == Err(CommandExpired) { ClaimAnswersSound(w, v, request, DeadlineElapsed); }
      else { SameAnswers(w, v); }
    }
    MoveKeeps(w, v, l.rows, l);
  }

  lemma TransferOwner(w: World, who: Identity, id: Uuid, verified: bool, now: int)
    requires Valid(w.ledger)
    ensures var l := L.Transfer(w.ledger, who, id, verified, now).0;
            && OwnersKnown(w, l.rows)
            && forall k :: k in l.rows && k in w.ledger.rows && Terminal(l.rows[k].state) ==>
               Terminal(w.ledger.rows[k].state)
  {
    hide ValidRecord, L.Expire;
    if id in w.ledger.rows { ExpireReports(w.ledger.rows[id], now); }
  }

  lemma ServeTransferKeepsInv(w: World, request: Uuid, verified: bool, now: int)
    requires Inv(w) && request in w.requests && w.requests[request].ResultMessage?
    ensures Inv(ServedTransfer(w, request, verified, now)) && Later(w, ServedTransfer(w, request, verified, now))
  {
    hide Inv, L.Transfer, LedgerMove, OutcomesAgree, OwnersKnown, AnswersSound, IdInv, Later;
    var m := w.requests[request];
    var l := L.Transfer(w.ledger, m.who, m.result.commandId, verified, now).0;
    assert Valid(w.ledger) by { ValidInv(w); }
    TransferShrinks(w.ledger, m.who, m.result.commandId, verified, now);
    TransferOwner(w, m.who, m.result.commandId, verified, now);
    ShrinkIsMove(w, l);
    RowsInHistory(w);
    var v := ServedTransfer(w, request, verified, now);
    assert v == w.(ledger := l, history := w.history + l.rows, answers := v.answers);
    QuietOutcomes(w, v, l.rows, l);
    SameAnswers(w, v);
    MoveKeeps(w, v, l.rows, l);
  }

  lemma ResultOutcome(w: World, request: Uuid, verified: bool, now: int)
    requires Valid(w.ledger) && request in w.requests && w.requests[request].ResultMessage?
    ensures var m := w.requests[request];
            var l := L.Publish(w.ledger, m.who, m.result, verified, now).0;
            && OwnersKnown(w, l.rows)
            && forall id ::
               id in l.rows && id in w.ledger.rows && Terminal(l.rows[id].state)
                 && !Terminal(w.ledger.rows[id].state) ==>
                 id == m.result.commandId && Terminal(m.result.state) && Reports(l.rows[id], m.result)
                   && l.rows[id].owner == Some(Owner(m.who.agentId, m.who.sessionId))
  {
    hide Json.Print, Json.Normal;
    var m := w.requests[request];
    PublishAnswers(w.ledger, m.who, m.result, verified, now);
  }

  lemma ResultAnswersSound(w: World, v: World, request: Uuid)
    requires request in w.requests && w.requests[request].ResultMessage? && v.requests == w.requests
    requires v.answers == w.answers + {(request, Received)}
    requires var id := w.requests[request].result.commandId; id in v.history && Settled(v.history[id].state)
    ensures AnswersSound(w, v)
  {
  }

  lemma ResultOutcomesAgree(w: World, v: World, request: Uuid, latest: map<Uuid, Record>, l: L.Ledger)
    requires request in w.requests && w.requests[request].ResultMessage? && RequestInv(w, request)
    requires LedgerMove(w, latest, l) && v.history == w.history + latest && v.hosts == w.hosts
    requires forall id :: id in w.ledger.rows ==> IdInv(w, id)
    requires var m := w.requests[request];
             forall id | id in latest && id in w.ledger.rows
                         && Terminal(latest[id].state) && !Terminal(w.ledger.rows[id].state) ::
               && id == m.result.commandId && Terminal(m.result.state) && Reports(latest[id], m.result)
               && latest[id].owner == Some(Owner(m.who.agentId, m.who.sessionId))
    ensures OutcomesAgree(w, v, latest)
  {
    hide Agrees, Reports, RequestInv;
    forall id, agent | id in latest && agent in v.hosts && OwnedBy(v, agent, id) && Terminal(latest[id].state)
      ensures (id in w.history && Terminal(w.history[id].state)) || Agrees(v, agent, id)
    {
      if id in w.ledger.rows && !Terminal(w.ledger.rows[id].state) { CarriedIsAgreed(w, v, request); }
    }
  }

  lemma ServeResultKeepsInv(w: World, request: Uuid, verified: bool, now: int)
    requires Inv(w) && request in w.requests && w.requests[request].ResultMessage?
    ensures Inv(ServedResult(w, request, verified, now)) && Later(w, ServedResult(w, request, verified, now))
  {
    hide Inv, L.Publish, LedgerMove, OutcomesAgree, OwnersKnown, AnswersSound, IdInv, Reports, Later;
    var m := w.requests[request];
    assert Valid(w.ledger) && RequestInv(w, request) by { RequestOf(w, request); }
    var (l, reply) := L.Publish(w.ledger, m.who, m.result, verified, now);
    PublishShrinks(w.ledger, m.who, m.result, verified, now);
    PublishAnswers(w.ledger, m.who, m.result, verified, now);
    ResultOutcome(w, request, verified, now);
    ShrinkIsMove(w, l);
    RowsInHistory(w);
    var v := ServedResult(w, request, verified, now);
    assert v == w.(ledger := l, history := w.history + l.rows, answers := v.answers);
    ResultOutcomesAgree(w, v, request, l.rows, l);
    if reply.Ok? {
      ReportsSettles(l.rows[m.result.commandId], m.result);
      ResultAnswersSound(w, v, request);
    } else {
      SameAnswers(w, v);
    }
    MoveKeeps(w, v, l.rows, l);
  }

  lemma RequestOf(w: World, request: Uuid)
    requires Inv(w) && request in w.requests
    ensures Valid(w.ledger) && RequestInv(w, request)
  {
  }

  lemma ReportsSettles(r: Record, result: CommandResult)
    requires Reports(r, result) && Reportable(result.state)
    ensures Settled(r.state)
  {
  }

  /** The request still carries what the sender's journal holds in every content. */
  lemma CarriedIsAgreed(w: World, v: World, request: Uuid)
    requires request in w.requests && w.requests[request].ResultMessage? && RequestInv(w, request) && v.hosts == w.hosts
    requires var m := w.requests[request];
             && Terminal(m.result.state) && m.result.commandId in v.history
                && Reports(v.history[m.result.commandId], m.result)
    ensures Agrees(v, w.requests[request].who.agentId, w.requests[request].result.commandId)
  {
    hide Reports;
  }
}
