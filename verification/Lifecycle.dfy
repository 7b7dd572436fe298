/**
 The local lifecycle adapter: one start or stop of a project, or a read-only look
 at what became of an earlier one. Everything the host answers is an input; the
 driver calls that have effects are recorded.
 */
module Lifecycle {
  import opened Prelude
  import opened Wire
  import opened Journal
  import opened Evidence
  import J = CommandJournal
  import W = World

  // ----- what the host answers -----

  /** One round of waiting: what is seen, whether the target has exited, and the time afterwards. */
  datatype Poll = Poll(inspection: Option<Inspection>, exited: Option<bool>, after: int)

  datatype StopReply = SignalSent | AlreadyStopped | SupersededTarget | NoOutcome

  /** Answers in the order the adapter asks; None where the call throws. */
  datatype Answers = Answers(
    now: int, resolved: Option<string>, observed: Option<Inspection>, exited: Option<bool>,
    resolvedAgain: Option<string>, started: Option<Option<int>>,
    persisting: W.Io, stopped: Option<StopReply>, polls: seq<Poll>, last: Option<Inspection>)

  // ----- what the adapter answers -----

  datatype Outcome = Outcome(state: State, process: PublicProcess, diagnostic: Option<ErrorCode>)

  /** Calls of the driver that change something. */
  datatype Effect = Spawned(deadline: int) | Signalled(target: StopTarget, deadline: int)

  function Success(current: Inspection): Outcome { Outcome(Succeeded, Public(current.process), None) }

  function Failure(current: Inspection, code: ErrorCode): Outcome {
    Outcome(Failed, Public(current.process), Some(code))
  }

  function Unresolved(current: Inspection): Outcome {
    Outcome(Unknown, Public(current.process), Some(UnresolvedCommand))
  }

  // ----- what the answers come to -----

  /** Nothing has been decided at this poll of a starting project, and there is time left. */
  predicate StillStarting(p: Poll, deadline: int) {
    p.inspection.Some? && !(p.inspection.value.process.Running? && p.inspection.value.ready) && p.after < deadline
  }

  /** The first poll that decides anything shows the project running and ready. */
  ghost predicate SeenReady(polls: seq<Poll>, deadline: int, i: Inspection) {
    exists k :: 0 <= k < |polls| && polls[k].inspection == Some(i) && i.process.Running? && i.ready
                && forall j :: 0 <= j < k ==> StillStarting(polls[j], deadline)
  }

  /** The deadline passes at a poll that decides nothing, and none before it decided anything. */
  ghost predicate NeverReady(polls: seq<Poll>, deadline: int) {
    exists k :: 0 <= k < |polls| && polls[k].inspection.Some? && deadline <= polls[k].after
                && !(polls[k].inspection.value.process.Running? && polls[k].inspection.value.ready)
                && forall j :: 0 <= j < k ==> StillStarting(polls[j], deadline)
  }

  /** A start was asked of the driver and it answered: the project was stopped, valid and released. */
  predicate Started(a: Answers) {
    && a.resolved.Some? && a.observed.Some? && a.resolvedAgain.Some? && a.started.Some?
    && !a.observed.value.invalid && a.observed.value.process.Stopped? && a.observed.value.locksReleased
  }

  ghost predicate StartSucceeds(a: Answers, deadline: int, i: Inspection) {
    || (a.resolved.Some? && a.observed == Some(i) && !i.invalid && i.process.Running? && i.ready)
    || (Started(a) && SeenReady(a.polls, deadline, i))
  }

  ghost predicate StartFails(a: Answers, deadline: int, i: Inspection, code: ErrorCode) {
    || (a.resolved.Some? && a.observed == Some(i) && i.invalid && code == ProjectInvalid)
    || (&& a.resolved.Some? && a.observed == Some(i) && !i.invalid && code == ProcessUnverified
        && (i.process.Unverified? || (i.process.Running? && !i.ready) || (i.process.Stopped? && !i.locksReleased)))
    || (&& Started(a) && NeverReady(a.polls, deadline) && a.last == Some(i) && code == ProjectInvalid
        && a.started.value.Some? && a.started.value.value != 0)
  }

  ghost predicate StartUnresolved(a: Answers, deadline: int, i: Inspection) {
    && Started(a) && NeverReady(a.polls, deadline) && a.last == Some(i)
    && (a.started.value.None? || a.started.value.value == 0)
  }

  /** The answer to a start, for every state: nothing else leads to it, and what leads to it leads nowhere else. */
  ghost predicate StartTold(a: Answers, deadline: int, reply: Option<Outcome>) {
    && (forall i :: StartSucceeds(a, deadline, i) ==> reply == Some(Outcome(Succeeded, Public(i.process), None)))
    && (forall i, code :: StartFails(a, deadline, i, code) ==>
          reply == Some(Outcome(Failed, Public(i.process), Some(code))))
    && (forall i :: StartUnresolved(a, deadline, i) ==>
          reply == Some(Outcome(Unknown, Public(i.process), Some(UnresolvedCommand))))
    && (reply.Some? ==>
          match reply.value.state
          case Succeeded => exists i :: StartSucceeds(a, deadline, i)
          case Failed => exists i, code :: StartFails(a, deadline, i, code)
          case Unknown => exists i :: StartUnresolved(a, deadline, i)
          case _ => false)
  }

  /** The process that runs is this target, in this folder. */
  predicate IsTarget(t: StopTarget, i: Inspection, canonicalPath: string) {
    && i.process.Running? && t.pid == i.process.pid && t.processIdentity == i.process.identity
    && i.runtime.Some? && t.configDir == i.runtime.value.configDir
    && t.runtimeProjectId == i.runtime.value.runtimeProjectId && t.canonicalPath == canonicalPath
  }

  /** Another process than the target runs. */
  predicate OtherRuns(t: StopTarget, i: Inspection) {
    i.process.Running? && (i.process.pid != t.pid || i.process.identity != t.processIdentity)
  }

  predicate StillStopping(p: Poll, t: StopTarget, deadline: int) {
    && p.inspection.Some? && !OtherRuns(t, p.inspection.value) && p.after < deadline
    && (p.inspection.value.process.Stopped? && p.inspection.value.locksReleased ==> p.exited.Some? && !p.exited.value)
  }

  ghost predicate SeenExited(polls: seq<Poll>, t: StopTarget, deadline: int, i: Inspection) {
    exists k :: 0 <= k < |polls| && polls[k].inspection == Some(i) && polls[k].exited == Some(true)
                && i.process.Stopped? && i.locksReleased
                && forall j :: 0 <= j < k ==> StillStopping(polls[j], t, deadline)
  }

  ghost predicate SeenReplaced(polls: seq<Poll>, t: StopTarget, deadline: int, i: Inspection) {
    exists k :: 0 <= k < |polls| && polls[k].inspection == Some(i) && OtherRuns(t, i)
                && forall j :: 0 <= j < k ==> StillStopping(polls[j], t, deadline)
  }

  ghost predicate NeverExited(polls: seq<Poll>, t: StopTarget, deadline: int) {
    exists k :: 0 <= k < |polls| && polls[k].inspection.Some? && deadline <= polls[k].after
                && !OtherRuns(t, polls[k].inspection.value)
                && (polls[k].inspection.value.process.Stopped? && polls[k].inspection.value.locksReleased ==>
                      polls[k].exited.Some? && !polls[k].exited.value)
                && forall j :: 0 <= j < k ==> StillStopping(polls[j], t, deadline)
  }

  /** The folder is the registered one, or no target was named yet. */
  predicate SameFolder(a: Answers, expected: Option<StopTarget>) {
    a.resolved.Some? && a.observed.Some? && (expected.Some? ==> expected.value.canonicalPath == a.resolved.value)
  }

  /** The target the driver is asked to stop. */
  predicate Aimed(a: Answers, expected: Option<StopTarget>, t: StopTarget) {
    && a.resolved.Some? && a.observed.Some? && IsTarget(t, a.observed.value, a.resolved.value)
    && (expected.Some? ==> expected.value == t)
  }

  predicate SignalTaken(a: Answers) { a.stopped == Some(SignalSent) || a.stopped == Some(AlreadyStopped) }

  /** `durable` tells whether the target was journaled. */
  ghost predicate StopSucceeds(a: Answers, expected: Option<StopTarget>, durable: bool, deadline: int, i: Inspection) {
    || (&& SameFolder(a, expected) && a.observed == Some(i) && i.process.Stopped? && i.locksReleased
        && (expected.Some? ==> a.exited == Some(true)))
    || (exists t :: Aimed(a, expected, t) && durable && SignalTaken(a) && SeenExited(a.polls, t, deadline, i))
  }

  ghost predicate StopFails(
    a: Answers, expected: Option<StopTarget>, durable: bool, deadline: int, i: Inspection, code: ErrorCode)
  {
    || (&& a.resolved.Some? && a.observed == Some(i) && !SameFolder(a, expected)
        && code == ErrorCode.SupersededTarget)
    || (&& SameFolder(a, expected) && a.observed == Some(i) && code == ProcessUnverified
        && (i.process.Unverified? || (i.process.Running? && i.runtime.None?)))
    || (&& SameFolder(a, expected) && a.observed == Some(i) && code == ErrorCode.SupersededTarget
        && i.process.Running? && i.runtime.Some? && expected.Some? && !IsTarget(expected.value, i, a.resolved.value))
    || (&& (exists t :: Aimed(a, expected, t)) && durable && a.stopped == Some(StopReply.SupersededTarget)
        && a.last == Some(i) && code == ErrorCode.SupersededTarget)
    || (&& durable && SignalTaken(a) && code == ErrorCode.SupersededTarget
        && exists t :: Aimed(a, expected, t) && SeenReplaced(a.polls, t, deadline, i))
  }

  ghost predicate StopUnresolved(
    a: Answers, expected: Option<StopTarget>, durable: bool, deadline: int, i: Inspection)
  {
    || (&& SameFolder(a, expected) && a.observed == Some(i) && i.process.Stopped?
        && (!i.locksReleased || (expected.Some? && a.exited.Some? && !a.exited.value)))
    || (&& durable && a.last == Some(i)
        && exists t :: Aimed(a, expected, t)
                       && (a.stopped == Some(NoOutcome) || (SignalTaken(a) && NeverExited(a.polls, t, deadline))))
  }

  /** The answer to a stop, for every state. */
  ghost predicate StopTold(
    a: Answers, expected: Option<StopTarget>, durable: bool, deadline: int, reply: Option<Outcome>)
  {
    && (forall i :: StopSucceeds(a, expected, durable, deadline, i) ==>
          reply == Some(Outcome(Succeeded, Public(i.process), None)))
    && (forall i, code :: StopFails(a, expected, durable, deadline, i, code) ==>
          reply == Some(Outcome(Failed, Public(i.process), Some(code))))
    && (forall i :: StopUnresolved(a, expected, durable, deadline, i) ==>
          reply == Some(Outcome(Unknown, Public(i.process), Some(UnresolvedCommand))))
    && (reply.Some? ==>
          match reply.value.state
          case Succeeded => exists i :: StopSucceeds(a, expected, durable, deadline, i)
          case Failed => exists i, code :: StopFails(a, expected, durable, deadline, i, code)
          case Unknown => exists i :: StopUnresolved(a, expected, durable, deadline, i)
          case _ => false)
  }

  ghost predicate LookSucceeds(
    operation: Operation, canonicalPath: string, target: Option<StopTarget>, a: Answers, i: Inspection)
  {
    && a.resolved == Some(canonicalPath) && a.observed == Some(i)
    && match operation
       case Start => i.process.Running? && i.ready
       case Stop =>
         && target.Some? && target.value.canonicalPath == canonicalPath
         && i.process.Stopped? && i.locksReleased && a.exited == Some(true)
  }

  ghost predicate LookFails(
    operation: Operation, canonicalPath: string, target: Option<StopTarget>, a: Answers, i: Inspection)
  {
    && a.resolved.Some? && a.observed == Some(i)
    && (|| a.resolved.value != canonicalPath
        || (operation.Stop? && target.Some? && target.value.canonicalPath != canonicalPath)
        || (operation.Stop? && target.Some? && i.process.Running? && i.runtime.Some?
            && !IsTarget(target.value, i, canonicalPath)))
  }

  ghost predicate LookUnresolved(
    operation: Operation, canonicalPath: string, target: Option<StopTarget>, a: Answers, i: Inspection)
  {
    && a.resolved == Some(canonicalPath) && a.observed == Some(i)
    && match operation
       case Start => !(i.process.Running? && i.ready)
       case Stop =>
         || target.None?
         || (&& target.value.canonicalPath == canonicalPath
             && match i.process
                case Running(_, _, _) => i.runtime.None? || IsTarget(target.value, i, canonicalPath)
                case Stopped(_) => !i.locksReleased || (a.exited.Some? && !a.exited.value)
                case Unverified(_, _, _) => true)
  }

  /** The answer to a look at an earlier operation, for every state. */
  ghost predicate LookTold(
    operation: Operation, canonicalPath: string, target: Option<StopTarget>, a: Answers, reply: Option<Outcome>)
  {
    && (forall i :: LookSucceeds(operation, canonicalPath, target, a, i) ==>
          reply == Some(Outcome(Succeeded, Public(i.process), None)))
    && (forall i :: LookFails(operation, canonicalPath, target, a, i) ==>
          reply == Some(Outcome(Failed, Public(i.process), Some(ErrorCode.SupersededTarget))))
    && (forall i :: LookUnresolved(operation, canonicalPath, target, a, i) ==>
          reply == Some(Outcome(Unknown, Public(i.process), Some(UnresolvedCommand))))
    && (reply.Some? ==>
          match reply.value.state
          case Succeeded => exists i :: LookSucceeds(operation, canonicalPath, target, a, i)
          case Failed => exists i :: LookFails(operation, canonicalPath, target, a, i)
          case Unknown => exists i :: LookUnresolved(operation, canonicalPath, target, a, i)
          case _ => false)
  }

  // ----- the conditions a result rests on -----

  predicate Replaced(i: Inspection, target: StopTarget) {
    i.process.Running? && (i.process.pid != target.pid || i.process.identity != target.processIdentity)
  }

  function TargetOf(b: Binding, canonicalPath: string, p: Process): StopTarget
    requires p.Running?
  {
    StopTarget(b.configDir, b.runtimeProjectId, canonicalPath, p.pid, p.identity)
  }

  /** Waiting ends at the first poll that completes, shows a replacement, throws or meets the deadline. */
  predicate Completes(p: Poll, target: Option<StopTarget>) {
    p.inspection.Some?
    && (if target.None? then Ready(p.inspection.value) else Released(p.inspection.value) && p.exited == Some(true))
  }

  predicate Supersedes(p: Poll, target: Option<StopTarget>) {
    p.inspection.Some? && target.Some? && Replaced(p.inspection.value, target.value)
  }

  predicate Throws(p: Poll, target: Option<StopTarget>) {
    p.inspection.None? || (target.Some? && Released(p.inspection.value) && p.exited.None?)
  }

  predicate Goes(p: Poll, target: Option<StopTarget>, deadline: int) {
    !Completes(p, target) && !Supersedes(p, target) && !Throws(p, target) && p.after < deadline
  }

  /** The clock reaches the deadline within the given polls. */
  predicate Ends(polls: seq<Poll>, deadline: int) {
    polls != [] && polls[|polls| - 1].after >= deadline
  }

  datatype Waiting = Ended(outcome: Outcome) | TimedOut | Threw

  predicate EndsWith(p: Poll, target: Option<StopTarget>, deadline: int, w: Waiting) {
    match w
    case Ended(outcome) =>
      && p.inspection.Some?
      && if Supersedes(p, target) then outcome == Failure(p.inspection.value, ErrorCode.SupersededTarget)
         else Completes(p, target) && outcome == Success(p.inspection.value)
    case TimedOut => !Completes(p, target) && !Supersedes(p, target) && !Throws(p, target) && p.after >= deadline
    case Threw => Throws(p, target) && !Supersedes(p, target)
  }

  /** The poll at k is the first to end the wait, and it decides how. */
  ghost predicate EndsAt(polls: seq<Poll>, k: nat, target: Option<StopTarget>, deadline: int, w: Waiting) {
    && k < |polls| && EndsWith(polls[k], target, deadline, w)
    && forall j :: 0 <= j < k ==> Goes(polls[j], target, deadline)
  }

  lemma EndsByStopping(p: Poll, target: Option<StopTarget>, deadline: int, w: Waiting)
    requires EndsWith(p, target, deadline, w)
    ensures !Goes(p, target, deadline)
  {
  }

  /** Nothing else could have ended the wait. */
  lemma WaitIsDetermined(
    polls: seq<Poll>, j: nat, k: nat, target: Option<StopTarget>, deadline: int, v: Waiting, w: Waiting)
    requires EndsAt(polls, j, target, deadline, v) && EndsAt(polls, k, target, deadline, w)
    ensures j == k && v == w
  {
    EndsByStopping(polls[j], target, deadline, v);
    EndsByStopping(polls[k], target, deadline, w);
  }

  method Wait(polls: seq<Poll>, target: Option<StopTarget>, deadline: int) returns (w: Waiting, ghost k: nat)
    requires Ends(polls, deadline)
    ensures EndsAt(polls, k, target, deadline, w)
  {
    var index := 0;
    while true
      invariant 0 <= index < |polls|
      invariant forall j :: 0 <= j < index ==> Goes(polls[j], target, deadline)
      decreases |polls| - index
    {
      k := index;
      var poll := polls[index];
      if poll.inspection.None? { return Threw, k; }
      var current := poll.inspection.value;
      if target.Some? && current.process.Running?
         && (current.process.pid != target.value.pid || current.process.identity != target.value.processIdentity)
      {
        return Ended(Failure(current, ErrorCode.SupersededTarget)), k;
      }
      if target.None? {
        if current.process.Running? && current.ready { return Ended(Success(current)), k; }
      } else if current.process.Stopped? && current.locksReleased {
        if poll.exited.None? { return Threw, k; }
        if poll.exited.value { return Ended(Success(current)), k; }
      }
      if poll.after >= deadline { return TimedOut, k; }
      index := index + 1;
    }
  }

  // ----- every answer is decided by what the host answered -----

  lemma WaitedForStart(polls: seq<Poll>, k: nat, deadline: int, w: Waiting)
    requires EndsAt(polls, k, None, deadline, w)
    ensures k < |polls|
    ensures w.Ended? ==>
              && polls[k].inspection.Some? && w.outcome == Success(polls[k].inspection.value)
              && forall i :: SeenReady(polls, deadline, i) <==> polls[k].inspection == Some(i)
    ensures !w.Ended? ==> forall i :: !SeenReady(polls, deadline, i)
    ensures NeverReady(polls, deadline) <==> w.TimedOut?
  {
    forall j | 0 <= j < k ensures StillStarting(polls[j], deadline) { assert Goes(polls[j], None, deadline); }
    var p := polls[k];
    assert !StillStarting(p, deadline);
    forall m: nat | m < |polls| && forall j :: 0 <= j < m ==> StillStarting(polls[j], deadline)
      ensures m <= k && (m < k ==> StillStarting(polls[m], deadline))
    {
      assert k < m ==> StillStarting(p, deadline);
    }
  }

  lemma WaitedForStop(polls: seq<Poll>, k: nat, t: StopTarget, deadline: int, w: Waiting)
    requires EndsAt(polls, k, Some(t), deadline, w)
    ensures k < |polls| && (w.Ended? ==> polls[k].inspection.Some?)
    ensures w.Ended? && OtherRuns(t, polls[k].inspection.value) ==>
              && polls[k].inspection.Some?
                 && w.outcome == Failure(polls[k].inspection.value, ErrorCode.SupersededTarget)
              && (forall i :: SeenReplaced(polls, t, deadline, i) <==> polls[k].inspection == Some(i))
              && forall i :: !SeenExited(polls, t, deadline, i)
    ensures w.Ended? && !OtherRuns(t, polls[k].inspection.value) ==>
              && polls[k].inspection.Some? && w.outcome == Success(polls[k].inspection.value)
              && (forall i :: SeenExited(polls, t, deadline, i) <==> polls[k].inspection == Some(i))
              && forall i :: !SeenReplaced(polls, t, deadline, i)
    ensures !w.Ended? ==> forall i :: !SeenExited(polls, t, deadline, i) && !SeenReplaced(polls, t, deadline, i)
    ensures NeverExited(polls, t, deadline) <==> w.TimedOut?
  {
    forall j | 0 <= j < k ensures StillStopping(polls[j], t, deadline) { assert Goes(polls[j], Some(t), deadline); }
    var p := polls[k];
    assert !StillStopping(p, t, deadline);
    forall m: nat | m < |polls| && forall j :: 0 <= j < m ==> StillStopping(polls[j], t, deadline)
      ensures m <= k && (m < k ==> StillStopping(polls[m], t, deadline))
    {
      assert k < m ==> StillStopping(p, t, deadline);
    }
  }

  /** What waiting for a started project comes to. */
  predicate WaitedReply(a: Answers, w: Waiting, reply: Option<Outcome>)
    requires Started(a)
  {
    match w
    case Ended(outcome) => reply == Some(outcome)
    case Threw => reply.None?
    case TimedOut =>
      if a.last.None? then reply.None?
      else if a.started.value.None? || a.started.value.value == 0 then reply == Some(Unresolved(a.last.value))
      else reply == Some(Failure(a.last.value, ProjectInvalid))
  }

  lemma StartWaited(a: Answers, deadline: int, k: nat, w: Waiting, reply: Option<Outcome>)
    requires Started(a) && EndsAt(a.polls, k, None, deadline, w) && WaitedReply(a, w, reply)
    ensures StartTold(a, deadline, reply)
  {
    hide EndsAt, SeenReady, NeverReady;
    WaitedForStart(a.polls, k, deadline, w);
    if w.Ended? {
      assert StartSucceeds(a, deadline, a.polls[k].inspection.value);
    } else if w.TimedOut? && a.last.Some? {
      if a.started.value.None? || a.started.value.value == 0 {
        assert StartUnresolved(a, deadline, a.last.value);
      } else {
        assert StartFails(a, deadline, a.last.value, ProjectInvalid);
      }
    }
  }

  /** What a start comes to where the driver is not asked or does not answer. */
  predicate Refusal(a: Answers, reply: Option<Outcome>) {
    if a.resolved.None? || a.observed.None? then reply.None?
    else
      var i := a.observed.value;
      reply == if i.invalid then Some(Failure(i, ProjectInvalid))
               else if Ready(i) then Some(Success(i))
               else if Released(i) then None
               else Some(Failure(i, ProcessUnverified))
  }

  lemma StartRefused(a: Answers, deadline: int, reply: Option<Outcome>)
    requires !Started(a) && Refusal(a, reply)
    ensures StartTold(a, deadline, reply)
  {
    hide SeenReady, NeverReady;
    if a.resolved.Some? && a.observed.Some? {
      var i := a.observed.value;
      assert i.invalid ==> StartFails(a, deadline, i, ProjectInvalid);
      assert !i.invalid && Ready(i) ==> StartSucceeds(a, deadline, i);
      assert !i.invalid && !Ready(i) && !Released(i) ==> StartFails(a, deadline, i, ProcessUnverified);
    }
  }

  /** What a stop comes to where the driver is not asked. */
  predicate StopRefusal(a: Answers, expected: Option<StopTarget>, reply: Option<Outcome>) {
    if a.resolved.None? || a.observed.None? then reply.None?
    else
      var i := a.observed.value;
      if expected.Some? && expected.value.canonicalPath != a.resolved.value then
        reply == Some(Failure(i, ErrorCode.SupersededTarget))
      else if i.process.Unverified? then reply == Some(Failure(i, ProcessUnverified))
      else if i.process.Stopped? then
        if !i.locksReleased then reply == Some(Unresolved(i))
        else if expected.None? then reply == Some(Success(i))
        else if a.exited.None? then reply.None?
        else reply == Some(if a.exited.value then Success(i) else Unresolved(i))
      else if i.runtime.None? then reply == Some(Failure(i, ProcessUnverified))
      else reply == Some(Failure(i, ErrorCode.SupersededTarget))
  }

  lemma StopRefused(
    a: Answers, expected: Option<StopTarget>, durable: bool, deadline: int, reply: Option<Outcome>)
    requires StopsAt(a, expected).None? && StopRefusal(a, expected, reply)
    ensures StopTold(a, expected, durable, deadline, reply)
  {
    hide SeenExited, SeenReplaced, NeverExited;
    forall t ensures !Aimed(a, expected, t) { NotAimed(a, expected, t); }
    if a.resolved.Some? && a.observed.Some? {
      var i := a.observed.value;
      if reply.Some? {
        if reply.value.state == Succeeded {
          assert StopSucceeds(a, expected, durable, deadline, i);
        } else if reply.value.state == Failed {
          assert StopFails(a, expected, durable, deadline, i, reply.value.diagnostic.value);
        } else {
          assert StopUnresolved(a, expected, durable, deadline, i);
        }
      }
    }
  }

  lemma NotAimed(a: Answers, expected: Option<StopTarget>, t: StopTarget)
    ensures Aimed(a, expected, t) <==> StopsAt(a, expected) == Some(t)
  {
  }

  /** A target that is not journaled is not signalled, and the call throws. */
  lemma StopUnjournaled(a: Answers, expected: Option<StopTarget>, deadline: int)
    requires StopsAt(a, expected).Some?
    ensures StopTold(a, expected, false, deadline, None)
  {
    NotAimed(a, expected, StopsAt(a, expected).value);
  }

  /** What a stop comes to once the driver was asked. */
  predicate StopReplied(a: Answers, w: Waiting, reply: Option<Outcome>) {
    if a.stopped.None? then reply.None?
    else if a.stopped.value == StopReply.SupersededTarget then
      reply == if a.last.None? then None else Some(Failure(a.last.value, ErrorCode.SupersededTarget))
    else if a.stopped.value.NoOutcome? then
      reply == if a.last.None? then None else Some(Unresolved(a.last.value))
    else
      match w
      case Ended(outcome) => reply == Some(outcome)
      case Threw => reply.None?
      case TimedOut => reply == if a.last.None? then None else Some(Unresolved(a.last.value))
  }

  lemma StopAnswered(
    a: Answers, expected: Option<StopTarget>, deadline: int, k: nat, w: Waiting, reply: Option<Outcome>)
    requires StopsAt(a, expected).Some? && StopReplied(a, w, reply)
    requires SignalTaken(a) ==> EndsAt(a.polls, k, StopsAt(a, expected), deadline, w)
    ensures StopTold(a, expected, true, deadline, reply)
  {
    hide EndsAt, SeenExited, SeenReplaced, NeverExited, StopsAt;
    var t := StopsAt(a, expected).value;
    forall u ensures Aimed(a, expected, u) <==> u == t { NotAimed(a, expected, u); }
    AimedRuns(a, expected, t);
    if SignalTaken(a) {
      WaitedForStop(a.polls, k, t, deadline, w);
      if w.Ended? {
        var i := a.polls[k].inspection.value;
        assert OtherRuns(t, i) ==> StopFails(a, expected, true, deadline, i, ErrorCode.SupersededTarget);
        assert !OtherRuns(t, i) ==> StopSucceeds(a, expected, true, deadline, i);
      } else if w.TimedOut? && a.last.Some? {
        assert StopUnresolved(a, expected, true, deadline, a.last.value);
      }
    } else if a.stopped.Some? && a.last.Some? {
      assert a.stopped.value.NoOutcome? ==> StopUnresolved(a, expected, true, deadline, a.last.value);
      assert !a.stopped.value.NoOutcome? ==>
          StopFails(a, expected, true, deadline, a.last.value, ErrorCode.SupersededTarget);
    }
  }

  lemma AimedRuns(a: Answers, expected: Option<StopTarget>, t: StopTarget)
    requires Aimed(a, expected, t)
    ensures a.observed.value.process.Running? && a.observed.value.runtime.Some? && SameFolder(a, expected)
    ensures expected.Some? ==> IsTarget(expected.value, a.observed.value, a.resolved.value)
  {
  }

  lemma LookedTold(
    operation: Operation, canonicalPath: string, target: Option<StopTarget>, a: Answers, reply: Option<Outcome>)
    requires LookReply(operation, canonicalPath, target, a, reply)
    ensures LookTold(operation, canonicalPath, target, a, reply)
  {
    if reply.Some? {
      var i := a.observed.value;
      assert reply.value.state == Succeeded ==> LookSucceeds(operation, canonicalPath, target, a, i);
      assert reply.value.state == Failed ==> LookFails(operation, canonicalPath, target, a, i);
      assert reply.value.state == Unknown ==> LookUnresolved(operation, canonicalPath, target, a, i);
    }
  }

  /** What looking comes to, branch by branch. */
  predicate LookReply(
    operation: Operation, canonicalPath: string, target: Option<StopTarget>, a: Answers, reply: Option<Outcome>)
  {
    if a.resolved.None? || a.observed.None? then reply.None?
    else
      var i := a.observed.value;
      if canonicalPath != a.resolved.value then reply == Some(Failure(i, ErrorCode.SupersededTarget))
      else if operation.Start? then reply == Some(if i.process.Running? && i.ready then Success(i) else Unresolved(i))
      else if target.None? then reply == Some(Unresolved(i))
      else if target.value.canonicalPath != canonicalPath then reply == Some(Failure(i, ErrorCode.SupersededTarget))
      else if i.process.Running? then
        reply == Some(if i.runtime.Some? && TargetOf(i.runtime.value, canonicalPath, i.process) != target.value
                      then Failure(i, ErrorCode.SupersededTarget) else Unresolved(i))
      else if !i.process.Stopped? || !i.locksReleased then reply == Some(Unresolved(i))
      else if a.exited.None? then reply.None?
      else reply == Some(if a.exited.value then Success(i) else Unresolved(i))
  }

  // ----- the adapter -----

  /** Nothing stands in the way of a start: it is the one case that spawns. */
  predicate Spawns(a: Answers) {
    && a.resolved.Some? && a.observed.Some? && a.resolvedAgain.Some?
    && !a.observed.value.invalid && Released(a.observed.value)
  }

  /** The target a stop goes for: the journaled one, or the process as it now runs. */
  function StopsAt(a: Answers, expected: Option<StopTarget>): Option<StopTarget> {
    if a.resolved.None? || a.observed.None? || !a.observed.value.process.Running?
        || a.observed.value.runtime.None? then None
    else
      var current := TargetOf(a.observed.value.runtime.value, a.resolved.value, a.observed.value.process);
      if expected.Some? && expected.value != current then None else Some(current)
  }

  /** The target can be journaled for this entry, and the write reaches the disk. */
  predicate Journals(e: Entry, a: Answers, expected: Option<StopTarget>) {
    StopsAt(a, expected).Some? && J.Written(PersistStopTarget(e, StopsAt(a, expected).value), a.persisting)
  }

  lemma TargetIsDurable(h: W.Host, id: Uuid, target: StopTarget, io: W.Io)
    requires id in h.memory && J.Written(PersistStopTarget(h.memory[id], target), io)
    ensures forall image: Image ::
            image in W.Write(h, id, PersistStopTarget(h.memory[id], target), io, None, None).disk ==>
              id in image && image[id].stopTarget == Some(target)
  {
  }

  class LocalLifecycleAdapter {
    const timeoutMs: Option<int>
    /** Every effect ever asked of the driver, in order. */
    var effects: seq<Effect>

    constructor (timeoutMs: Option<int>)
      ensures effects == [] && this.timeoutMs == timeoutMs
    {
      this.timeoutMs, effects := timeoutMs, [];
    }

    function TimeoutMs(): (ms: int)
      ensures 1 <= ms <= OBSERVATION_TIMEOUT_MS
      ensures timeoutMs.Some? && 1 <= timeoutMs.value <= OBSERVATION_TIMEOUT_MS ==> ms == timeoutMs.value
      ensures timeoutMs.None? || OBSERVATION_TIMEOUT_MS < timeoutMs.value ==> ms == OBSERVATION_TIMEOUT_MS
    {
      var chosen := if timeoutMs.Some? then timeoutMs.value else OBSERVATION_TIMEOUT_MS;
      if chosen > OBSERVATION_TIMEOUT_MS then OBSERVATION_TIMEOUT_MS else if chosen < 1 then 1 else chosen
    }

    function Deadline(now: int, observation: Option<int>): (deadline: int)
      ensures deadline <= now + OBSERVATION_TIMEOUT_MS
      ensures deadline <= now + TimeoutMs() && (observation.Some? ==> deadline <= observation.value)
      ensures deadline == now + TimeoutMs() || observation == Some(deadline)
    {
      var own := now + TimeoutMs();
      if observation.Some? && observation.value < own then observation.value else own
    }

    /** Spawns at most once, and only over a stopped project whose locks are released. */
    method Start(a: Answers, observation: Option<int>) returns (reply: Option<Outcome>)
      requires Ends(a.polls, Deadline(a.now, observation))
      modifies this
      ensures effects == old(effects) + if Spawns(a) then [Spawned(Deadline(a.now, observation))] else []
      ensures a.resolved.None? || a.observed.None? ==> reply.None?
      ensures a.resolved.Some? && a.observed.Some? && !Spawns(a) ==>
                var i := a.observed.value;
                if i.invalid then reply == Some(Failure(i, ProjectInvalid))
                else if Ready(i) then reply == Some(Success(i))
                else if Released(i) then reply.None?
                else reply == Some(Failure(i, ProcessUnverified))
      ensures reply.Some? ==> Reportable(reply.value.state)
      ensures reply.Some? && reply.value.state == Succeeded ==> StartIsProved(a, reply.value)
      ensures Spawns(a) && a.started.None? ==> reply.None?
      ensures Spawns(a) && a.started.Some? ==>
                exists k, w :: EndsAt(a.polls, k, None, Deadline(a.now, observation), w) &&
                  match w
                  case Ended(outcome) => reply == Some(outcome)
                  case Threw => reply.None?
                  case TimedOut =>
                    if a.last.None? then reply.None?
                    else if a.started.value == None || a.started.value == Some(0) then
                        reply == Some(Unresolved(a.last.value))
                    else reply == Some(Failure(a.last.value, ProjectInvalid))
      ensures StartTold(a, Deadline(a.now, observation), reply)
    {
      hide StartTold;
      var deadline := Deadline(a.now, observation);
      if !Started(a) {
        forall reply | Refusal(a, reply) ensures StartTold(a, deadline, reply) { StartRefused(a, deadline, reply); }
      }
      if a.resolved.None? || a.observed.None? { return None; }
      var observed := a.observed.value;
      if observed.invalid { return Some(Failure(observed, ProjectInvalid)); }
      if observed.process.Unverified? { return Some(Failure(observed, ProcessUnverified)); }
      if observed.process.Running? && observed.ready { return Some(Success(observed)); }
      if observed.process.Running? || !observed.locksReleased { return Some(Failure(observed, ProcessUnverified)); }
      if a.resolvedAgain.None? { return None; }
      effects := effects + [Spawned(deadline)];
      if a.started.None? { return None; }
      var w, k := Wait(a.polls, None, deadline);
      forall reply | WaitedReply(a, w, reply) ensures StartTold(a, deadline, reply) {
        StartWaited(a, deadline, k, w, reply);
      }
      match w {
        case Ended(outcome) => reply := Some(outcome);
        case Threw => reply := None;
        case TimedOut =>
          if a.last.None? { return None; }
          reply := Some(
            if a.started.value.None? || a.started.value.value == 0 then Unresolved(a.last.value)
            else Failure(a.last.value, ProjectInvalid));
      }
    }

    /** Persists the target, and only then signals exactly that target. */
    method Stop(journal: J.CommandJournal, id: Uuid, a: Answers, expected: Option<StopTarget>, observation: Option<int>)
      returns (reply: Option<Outcome>)
      requires journal.Valid() && Ends(a.polls, Deadline(a.now, observation))
      modifies this, journal
      ensures journal.Valid()
      ensures StopsAt(a, expected).None? || id !in old(journal.Memory()) ==>
                effects == old(effects) && journal.View() == old(journal.View())
      ensures StopsAt(a, expected).Some? && id in old(journal.Memory()) ==>
                var target := StopsAt(a, expected).value;
                var change := PersistStopTarget(old(journal.Memory())[id], target);
                && journal.View() == W.Write(old(journal.View()), id, change, a.persisting, None, None)
                && effects == old(effects)
                     + (if J.Written(change, a.persisting) then [Signalled(target, Deadline(a.now, observation))]
                        else [])
                && (!J.Written(change, a.persisting) ==> reply.None?)
      // whatever was signalled is what every durable content of the journal names
      ensures forall target, deadline :: effects == old(effects) + [Signalled(target, deadline)] ==>
                forall image: Image :: image in journal.View().disk ==>
                  id in image && image[id].stopTarget == Some(target)
      ensures reply.Some? ==> Reportable(reply.value.state)
      ensures reply.Some? && reply.value.state == Succeeded ==> StopIsProved(a, expected, reply.value)
      ensures var durable := id in old(journal.Memory()) && Journals(old(journal.Memory())[id], a, expected);
              StopTold(a, expected, durable, Deadline(a.now, observation), reply)
    {
      hide W.Write, J.Written, J.ImageOf, ValidEntry, StopTold;
      var deadline := Deadline(a.now, observation);
      ghost var durable := id in journal.Memory() && Journals(journal.Memory()[id], a, expected);
      if StopsAt(a, expected).None? {
        forall reply | StopRefusal(a, expected, reply) ensures StopTold(a, expected, durable, deadline, reply) {
          StopRefused(a, expected, durable, deadline, reply);
        }
      } else {
        StopUnjournaled(a, expected, deadline);
      }
      if a.resolved.None? || a.observed.None? { return None; }
      var (canonicalPath, observed) := (a.resolved.value, a.observed.value);
      if expected.Some? && expected.value.canonicalPath != canonicalPath {
        return Some(Failure(observed, ErrorCode.SupersededTarget));
      }
      if observed.process.Unverified? { return Some(Failure(observed, ProcessUnverified)); }
      if observed.process.Stopped? {
        if !observed.locksReleased { return Some(Unresolved(observed)); }
        if expected.None? { return Some(Success(observed)); }
        if a.exited.None? { return None; }
        return Some(if a.exited.value then Success(observed) else Unresolved(observed));
      }
      if observed.runtime.None? { return Some(Failure(observed, ProcessUnverified)); }
      var current := TargetOf(observed.runtime.value, canonicalPath, observed.process);
      if expected.Some? && expected.value != current { return Some(Failure(observed, ErrorCode.SupersededTarget)); }
      var target := if expected.Some? then expected.value else current;
      ghost var view := journal.View();
      var ok := journal.PersistStopTarget(id, target, a.persisting);
      if !ok { return None; }
      TargetIsDurable(view, id, target, a.persisting);
      effects := effects + [Signalled(target, deadline)];
      assert effects[|old(effects)|] == Signalled(target, deadline);
      if !SignalTaken(a) {
        forall reply | StopReplied(a, Threw, reply) ensures StopTold(a, expected, true, deadline, reply) {
          StopAnswered(a, expected, deadline, 0, Threw, reply);
        }
      }
      if a.stopped.None? { return None; }
      if a.stopped.value == StopReply.SupersededTarget || a.stopped.value.NoOutcome? {
        if a.last.None? { return None; }
        return Some(
          if a.stopped.value.NoOutcome? then Unresolved(a.last.value)
          else Failure(a.last.value, ErrorCode.SupersededTarget));
      }
      var w, k := Wait(a.polls, Some(target), deadline);
      forall reply | StopReplied(a, w, reply) ensures StopTold(a, expected, true, deadline, reply) {
        StopAnswered(a, expected, deadline, k, w, reply);
      }
      match w {
        case Ended(outcome) => reply := Some(outcome);
        case Threw => reply := None;
        case TimedOut => reply := if a.last.None? then None else Some(Unresolved(a.last.value));
      }
    }

    /** Looks only: it has no way to spawn, signal or write. */
    method Reconcile(operation: Operation, canonicalPath: string, target: Option<StopTarget>, a: Answers)
      returns (reply: Option<Outcome>)
      ensures reply.None? <==>
                || a.resolved.None? || a.observed.None?
                || (operation.Stop? && a.resolved.value == canonicalPath && target.Some?
                    && target.value.canonicalPath == canonicalPath && Released(a.observed.value) && a.exited.None?)
      ensures reply.Some? && reply.value.state == Succeeded <==>
                && a.resolved == Some(canonicalPath) && a.observed.Some?
                && reply == Some(Success(a.observed.value))
                && match operation
                   case Start => Ready(a.observed.value)
                   case Stop =>
                     && target.Some? && target.value.canonicalPath == canonicalPath
                     && Released(a.observed.value) && a.exited == Some(true)
      ensures reply.Some? && reply.value.state == Failed <==>
                && a.resolved.Some? && a.observed.Some?
                   && reply == Some(Failure(a.observed.value, ErrorCode.SupersededTarget))
                && (a.resolved.value != canonicalPath || (operation.Stop? && target.Some?
                      && (target.value.canonicalPath != canonicalPath
                          || (a.observed.value.process.Running? && a.observed.value.runtime.Some?
                              && TargetOf(a.observed.value.runtime.value, canonicalPath,
                                          a.observed.value.process) != target.value))))
      ensures reply.Some? ==> Reportable(reply.value.state)
      ensures LookTold(operation, canonicalPath, target, a, reply)
    {
      hide LookTold;
      forall reply | LookReply(operation, canonicalPath, target, a, reply)
        ensures LookTold(operation, canonicalPath, target, a, reply)
      {
        LookedTold(operation, canonicalPath, target, a, reply);
      }
      if a.resolved.None? || a.observed.None? { return None; }
      var current := a.observed.value;
      if canonicalPath != a.resolved.value { return Some(Failure(current, ErrorCode.SupersededTarget)); }
      if operation.Start? {
        return Some(if current.process.Running? && current.ready then Success(current) else Unresolved(current));
      }
      if target.None? { return Some(Unresolved(current)); }
      if target.value.canonicalPath != canonicalPath { return Some(Failure(current, ErrorCode.SupersededTarget)); }
      if current.process.Running? {
        if current.runtime.Some? && TargetOf(current.runtime.value, canonicalPath, current.process) != target.value {
          return Some(Failure(current, ErrorCode.SupersededTarget));
        }
        return Some(Unresolved(current));
      }
      if !current.process.Stopped? || !current.locksReleased { return Some(Unresolved(current)); }
      if a.exited.None? { return None; }
      reply := Some(if a.exited.value then Success(current) else Unresolved(current));
    }
  }

  /** A succeeded start rests on a project seen running and ready. */
  ghost predicate StartIsProved(a: Answers, outcome: Outcome) {
    || (a.observed.Some? && Ready(a.observed.value) && outcome == Success(a.observed.value))
    || (exists k :: 0 <= k < |a.polls| && a.polls[k].inspection.Some? && Ready(a.polls[k].inspection.value)
                    && outcome == Success(a.polls[k].inspection.value))
  }

  /** The inspection is among the answers, and so is the exit of the target it names. */
  ghost predicate SeenIn(b: Basis, a: Answers) {
    b.Seen? ==>
      || (a.observed == Some(b.inspection) && (b.exited.Some? ==> a.exited == Some(true)))
      || (exists k :: 0 <= k < |a.polls| && a.polls[k].inspection == Some(b.inspection)
                      && (b.exited.Some? ==> a.polls[k].exited == Some(true)))
  }

  lemma BasisOfStart(a: Answers, outcome: Outcome) returns (b: Basis)
    requires StartIsProved(a, outcome)
    ensures b.Seen? && Ready(b.inspection) && outcome == Success(b.inspection) && SeenIn(b, a)
  {
    if a.observed.Some? && Ready(a.observed.value) && outcome == Success(a.observed.value) {
      b := Seen(a.observed.value, None);
    } else {
      var k :| 0 <= k < |a.polls| && a.polls[k].inspection.Some? && Ready(a.polls[k].inspection.value)
               && outcome == Success(a.polls[k].inspection.value);
      b := Seen(a.polls[k].inspection.value, None);
    }
  }

  /** The target that was seen to have exited is the one signalled, or else the one expected. */
  lemma BasisOfStop(a: Answers, expected: Option<StopTarget>, outcome: Outcome) returns (b: Basis)
    requires StopIsProved(a, expected, outcome)
    ensures b.Seen? && Released(b.inspection) && outcome == Success(b.inspection) && SeenIn(b, a)
    ensures b.exited == if StopsAt(a, expected).Some? then StopsAt(a, expected) else expected
  {
    if a.observed.Some? && Released(a.observed.value) && outcome == Success(a.observed.value) {
      b := Seen(a.observed.value, expected);
    } else {
      var k :| 0 <= k < |a.polls| && a.polls[k].inspection.Some? && Released(a.polls[k].inspection.value)
               && a.polls[k].exited == Some(true) && outcome == Success(a.polls[k].inspection.value);
      b := Seen(a.polls[k].inspection.value, StopsAt(a, expected));
    }
  }

  /** A succeeded stop rests on a project seen stopped with its locks released, and
      the known target seen to have exited. */
  ghost predicate StopIsProved(a: Answers, expected: Option<StopTarget>, outcome: Outcome) {
    || (&& a.observed.Some? && Released(a.observed.value) && outcome == Success(a.observed.value)
        && (expected.Some? ==> a.exited == Some(true)))
    || (&& StopsAt(a, expected).Some?
        && exists k :: 0 <= k < |a.polls| && a.polls[k].inspection.Some? && Released(a.polls[k].inspection.value)
                       && a.polls[k].exited == Some(true) && outcome == Success(a.polls[k].inspection.value))
  }
}
