/**
 Promise tails: one action at a time for each project, and a registry that closes
 only after every write it admitted.
 */
module Queues {
  import opened Prelude

  // ----- actions serialized by project -----

  datatype Status = Waiting | Running | Settled

  /** An action waits for the tail it found, whether that succeeds or fails. */
  datatype Action = Action(project: string, previous: Option<nat>, status: Status)

  /** Actions in the order they were requested, and the tail of each project. */
  datatype Queue = Queue(actions: seq<Action>, tails: map<string, nat>)

  const IDLE := Queue([], map[])

  datatype Event = Request(project: string) | Start(i: nat) | Settle(i: nat) | Forget(i: nat)

  predicate Enabled(q: Queue, e: Event) {
    match e
    case Request(_) => true
    case Start(i) =>
      && i < |q.actions| && q.actions[i].status == Waiting
      && var previous := q.actions[i].previous;
      previous.None? || (previous.value < |q.actions| && q.actions[previous.value].status == Settled)
    case Settle(i) => i < |q.actions| && q.actions[i].status == Running
    // runs when the action has settled, and deletes the tail only if it is still this action
    case Forget(i) => i < |q.actions| && q.actions[i].status == Settled
  }

  function Next(q: Queue, e: Event): Queue
    requires Enabled(q, e)
  {
    match e
    case Request(project) =>
      var previous := if project in q.tails then Some(q.tails[project]) else None;
      Queue(q.actions + [Action(project, previous, Waiting)], q.tails[project := |q.actions|])
    case Start(i) => q.(actions := q.actions[i := q.actions[i].(status := Running)])
    case Settle(i) => q.(actions := q.actions[i := q.actions[i].(status := Settled)])
    case Forget(i) =>
      var project := q.actions[i].project;
      if project in q.tails && q.tails[project] == i then q.(tails := q.tails - {project}) else q
  }

  /** An action that has started leaves every earlier action of its project settled. */
  ghost predicate InOrder(q: Queue) {
    forall i, j | 0 <= i < j < |q.actions| && q.actions[i].project == q.actions[j].project ::
      q.actions[j].status != Waiting ==> q.actions[i].status == Settled
  }

  /** The action waits for the one requested before it in its project, or all of those have settled. */
  ghost predicate Chained(q: Queue, j: nat)
    requires j < |q.actions|
  {
    var a := q.actions[j];
    match a.previous
    case Some(p) =>
      && p < j && q.actions[p].project == a.project
      && forall i :: p < i < j ==> q.actions[i].project != a.project
    case None => forall i :: 0 <= i < j && q.actions[i].project == a.project ==> q.actions[i].status == Settled
  }

  /** The tail is the last action of its project; without one, all have settled. */
  ghost predicate Tailed(q: Queue, project: string) {
    if project in q.tails then
      && q.tails[project] < |q.actions| && q.actions[q.tails[project]].project == project
      && forall i :: q.tails[project] < i < |q.actions| ==> q.actions[i].project != project
    else forall i :: 0 <= i < |q.actions| && q.actions[i].project == project ==> q.actions[i].status == Settled
  }

  ghost predicate Inv(q: Queue) {
    InOrder(q) && (forall j :: 0 <= j < |q.actions| ==> Chained(q, j)) && forall project :: Tailed(q, project)
  }

  lemma ChainedKept(q: Queue, e: Event, j: nat)
    requires Inv(q) && Enabled(q, e) && j < |Next(q, e).actions|
    ensures Chained(Next(q, e), j)
  {
    if j < |q.actions| {
      assert Chained(q, j);
    } else {
      assert Tailed(q, e.project);
    }
  }

  lemma TailedKept(q: Queue, e: Event, project: string)
    requires Inv(q) && Enabled(q, e)
    ensures Tailed(Next(q, e), project)
  {
    assert Tailed(q, project);
  }

  lemma OrderKept(q: Queue, e: Event)
    requires Inv(q) && Enabled(q, e)
    ensures InOrder(Next(q, e))
  {
    if e.Start? {
      var k := e.i;
      assert Chained(q, k);
      forall i | 0 <= i < k && q.actions[i].project == q.actions[k].project ensures q.actions[i].status == Settled {
        var previous := q.actions[k].previous;
        if previous.Some? && i < previous.value { assert q.actions[previous.value].status != Waiting; }
      }
    }
  }

  lemma NextKeepsInv(q: Queue, e: Event)
    requires Inv(q) && Enabled(q, e)
    ensures Inv(Next(q, e))
  {
    hide Enabled, Next, InOrder, Chained, Tailed;
    OrderKept(q, e);
    forall j | 0 <= j < |Next(q, e).actions| ensures Chained(Next(q, e), j) { ChainedKept(q, e, j); }
    forall project ensures Tailed(Next(q, e), project) { TailedKept(q, e, project); }
  }

  ghost predicate Path(queues: seq<Queue>, events: seq<Event>) {
    && |queues| == |events| + 1 && queues[0] == IDLE
    && forall k :: 0 <= k < |events| ==> Enabled(queues[k], events[k]) && queues[k + 1] == Next(queues[k], events[k])
  }

  lemma {:induction false} PathKeepsInv(queues: seq<Queue>, events: seq<Event>, k: nat)
    requires Path(queues, events) && k < |queues|
    ensures Inv(queues[k])
  {
    if k > 0 {
      hide Enabled, Next, Inv;
      PathKeepsInv(queues, events, k - 1);
      assert Enabled(queues[k - 1], events[k - 1]) && queues[k] == Next(queues[k - 1], events[k - 1]);
      NextKeepsInv(queues[k - 1], events[k - 1]);
    } else {
      IdleInv();
    }
  }

  lemma IdleInv()
    ensures Inv(IDLE)
  {
  }

  /** At no time do two actions of a project run, and they start in the order they were
      requested, however they end and whenever their tails are forgotten. */
  lemma OneAtATimeInOrder(queues: seq<Queue>, events: seq<Event>, k: nat, i: nat, j: nat)
    requires Path(queues, events) && k < |queues| && i < j < |queues[k].actions|
    requires queues[k].actions[i].project == queues[k].actions[j].project
    ensures queues[k].actions[j].status != Waiting ==> queues[k].actions[i].status == Settled
    ensures !(queues[k].actions[i].status == Running && queues[k].actions[j].status == Running)
  {
    PathKeepsInv(queues, events, k);
  }

  /** An action may start exactly when it is waiting and every action requested before it in its project has settled:
      no project waits for another, and none waits for ever on a tail that was forgotten. */
  lemma StartsExactly(queues: seq<Queue>, events: seq<Event>, k: nat, j: nat)
    requires Path(queues, events) && k < |queues| && j < |queues[k].actions|
    ensures var actions := queues[k].actions;
            Enabled(queues[k], Start(j)) <==>
              && actions[j].status == Waiting
              && forall i :: 0 <= i < j && actions[i].project == actions[j].project ==> actions[i].status == Settled
  {
    var q := queues[k];
    PathKeepsInv(queues, events, k);
    assert Chained(q, j);
    var previous := q.actions[j].previous;
    if previous.Some? && q.actions[previous.value].status == Settled {
      forall i | 0 <= i < j && q.actions[i].project == q.actions[j].project ensures q.actions[i].status == Settled {
        if i < previous.value { assert q.actions[previous.value].status != Waiting; }
      }
    }
  }

  // ----- closing the registry -----

  /** A registry write waits for the write before it; an owned operation starts at once. */
  datatype Operation = Operation(write: bool, settled: bool)

  /** Where closing stands: it first awaits the last write, then every owned operation, then releases the lock. */
  datatype Closing = Open | AwaitingWrites(last: Option<nat>) | AwaitingOwned(owned: set<nat>) | Released

  datatype Registry = Registry(operations: seq<Operation>, closing: Closing)

  datatype Act = Admit(write: bool) | Advance(i: nat) | End(i: nat) | Close | Proceed

  function LastWrite(operations: seq<Operation>): Option<nat> {
    if operations == [] then None
    else if operations[|operations| - 1].write then Some(|operations| - 1)
    else LastWrite(operations[..|operations| - 1])
  }

  /** An operation makes a step: it is not settled, and a write has its turn. */
  ghost predicate MayAdvance(r: Registry, i: nat) {
    && i < |r.operations| && !r.operations[i].settled
    && (r.operations[i].write ==> forall j :: 0 <= j < i && r.operations[j].write ==> r.operations[j].settled)
  }

  ghost predicate Permitted(r: Registry, a: Act) {
    match a
    case Admit(_) => r.closing.Open?
    case Advance(i) => MayAdvance(r, i)
    case End(i) => MayAdvance(r, i)
    case Close => r.closing.Open?
    case Proceed =>
      match r.closing
      case AwaitingWrites(last) => last.None? || (last.value < |r.operations| && r.operations[last.value].settled)
      case AwaitingOwned(owned) => forall i :: i in owned ==> i < |r.operations| && r.operations[i].settled
      case _ => false
  }

  function Owned(r: Registry): set<nat> {
    set i | 0 <= i < |r.operations| && !r.operations[i].write && !r.operations[i].settled
  }

  ghost function After(r: Registry, a: Act): Registry
    requires Permitted(r, a)
  {
    match a
    case Admit(write) => r.(operations := r.operations + [Operation(write, false)])
    case Advance(i) => r
    case End(i) => r.(operations := r.operations[i := r.operations[i].(settled := true)])
    case Close => r.(closing := AwaitingWrites(LastWrite(r.operations)))
    case Proceed => r.(closing := if r.closing.AwaitingWrites? then AwaitingOwned(Owned(r)) else Released)
  }

  /** Writes settle in order, and each stage of closing has left behind what it awaited. */
  ghost predicate Orderly(r: Registry) {
    && (forall i, j | 0 <= i < j < |r.operations| && r.operations[i].write && r.operations[j].write ::
          r.operations[j].settled ==> r.operations[i].settled)
    && match r.closing
       case Open => true
       case AwaitingWrites(last) => last == LastWrite(r.operations)
       case AwaitingOwned(owned) =>
         forall i :: 0 <= i < |r.operations| && !r.operations[i].settled ==> i in owned
       case Released => forall i :: 0 <= i < |r.operations| ==> r.operations[i].settled
  }

  lemma {:induction false} LastWriteIsLast(operations: seq<Operation>)
    ensures match LastWrite(operations)
            case None => forall i :: 0 <= i < |operations| ==> !operations[i].write
            case Some(k) =>
              k < |operations| && operations[k].write && forall i :: k < i < |operations| ==> !operations[i].write
  {
    if operations != [] && !operations[|operations| - 1].write { LastWriteIsLast(operations[..|operations| - 1]); }
  }

  lemma {:induction false} SettlingKeepsLastWrite(operations: seq<Operation>, i: nat)
    requires i < |operations|
    ensures LastWrite(operations[i := operations[i].(settled := true)]) == LastWrite(operations)
  {
    var n := |operations| - 1;
    var ended := operations[i := operations[i].(settled := true)];
    if !operations[n].write {
      if i < n {
        SettlingKeepsLastWrite(operations[..n], i);
        assert ended[..n] == operations[..n][i := operations[..n][i].(settled := true)];
      } else {
        assert ended[..n] == operations[..n];
      }
    }
  }

  lemma AfterKeepsOrderly(r: Registry, a: Act)
    requires Orderly(r) && Permitted(r, a)
    ensures Orderly(After(r, a))
  {
    LastWriteIsLast(r.operations);
    if a.End? { SettlingKeepsLastWrite(r.operations, a.i); }
  }

  ghost predicate Life(registries: seq<Registry>, acts: seq<Act>) {
    && |registries| == |acts| + 1 && registries[0] == Registry([], Open)
    && forall k :: 0 <= k < |acts| ==>
       Permitted(registries[k], acts[k]) && registries[k + 1] == After(registries[k], acts[k])
  }

  lemma {:induction false} LifeIsOrderly(registries: seq<Registry>, acts: seq<Act>, k: nat)
    requires Life(registries, acts) && k < |registries|
    ensures Orderly(registries[k])
  {
    if k > 0 {
      hide Orderly, Permitted, After;
      LifeIsOrderly(registries, acts, k - 1);
      assert Permitted(registries[k - 1], acts[k - 1]) && registries[k] == After(registries[k - 1], acts[k - 1]);
      AfterKeepsOrderly(registries[k - 1], acts[k - 1]);
    } else {
      EmptyIsOrderly();
    }
  }

  lemma EmptyIsOrderly()
    ensures Orderly(Registry([], Open))
  {
  }

  /** Once the lock is released every admitted operation has settled, so none makes a step after it. */
  lemma NoStepAfterRelease(registries: seq<Registry>, acts: seq<Act>, k: nat, i: nat)
    requires Life(registries, acts) && k < |registries| && registries[k].closing.Released?
    ensures i < |registries[k].operations| ==> registries[k].operations[i].settled
    ensures !MayAdvance(registries[k], i) && !Permitted(registries[k], Admit(true))
            && !Permitted(registries[k], Admit(false))
  {
    LifeIsOrderly(registries, acts, k);
  }

  /** Closing goes on exactly when every write, and then every operation, has settled; until then some operation can
      make a step. */
  lemma ClosingProceeds(registries: seq<Registry>, acts: seq<Act>, k: nat)
    requires Life(registries, acts) && k < |registries|
    ensures var (r, operations) := (registries[k], registries[k].operations);
            && (r.closing.AwaitingWrites? ==>
                  (Permitted(r, Proceed) <==>
                     forall i :: 0 <= i < |operations| && operations[i].write ==> operations[i].settled))
            && (r.closing.AwaitingOwned? ==>
                  (Permitted(r, Proceed) <==> forall i :: 0 <= i < |operations| ==> operations[i].settled))
            && ((exists i :: 0 <= i < |operations| && !operations[i].settled) ==> exists i: nat :: MayAdvance(r, i))
  {
    var r := registries[k];
    LifeIsOrderly(registries, acts, k);
    LastWriteIsLast(r.operations);
    OwnedIsReal(registries, acts, k);
    if i :| 0 <= i < |r.operations| && !r.operations[i].settled { FirstMayAdvance(r, i); }
  }

  lemma {:induction false} FirstMayAdvance(r: Registry, i: nat)
    requires i < |r.operations| && !r.operations[i].settled
    ensures exists j: nat :: MayAdvance(r, j)
  {
    if !MayAdvance(r, i) {
      var j :| 0 <= j < i && r.operations[j].write && !r.operations[j].settled;
      FirstMayAdvance(r, j);
    }
  }

  lemma {:induction false} OwnedIsReal(registries: seq<Registry>, acts: seq<Act>, k: nat)
    requires Life(registries, acts) && k < |registries|
    ensures registries[k].closing.AwaitingOwned? ==>
              forall i :: i in registries[k].closing.owned ==> i < |registries[k].operations|
  {
    if k > 0 {
      OwnedIsReal(registries, acts, k - 1);
      assert Permitted(registries[k - 1], acts[k - 1]) && registries[k] == After(registries[k - 1], acts[k - 1]);
    }
  }
}
