// Step by step: what the quiet steps keep, who may touch the map, and that a promise
// is settled once.
module SessionSteps {
  import opened Wrappers
  import opened Json
  import opened JsonRpc
  import opened SessionMachine
  import opened SessionTheorems

  /** The steps of callers, of the timeout thread and of those that close. */
  predicate ByOwnThread(a: Action) {
    a.Call? || a.Timeout? || a.Close?
  }

  predicate IsPlain(a: Action) {
    a.Tick? || a.Start? || a.Issue? || a.Notify? || a.Settle?
  }

  /** What time, start(), a new call, a notification and a settled promise keep. */
  ghost predicate Plainly(s: Session, s': Session) {
    && s'.pending == s.pending && s'.workers == s.workers && s'.received == s.received
    && s'.removed == s.removed && s.settled <= s'.settled && s'.closers == s.closers && s'.lock == s.lock
    && (s'.timer == s.timer || (s.startPc.Cleared? && s'.timer == Woken(None)))
    && (StartPast(s) ==> s'.closed == s.closed)
  }

  lemma PlainStart(s: Session, step: StartStep)
    requires CanStart(s, step)
    ensures Plainly(s, DoStart(s, step))
  {
  }

  lemma PlainIssue(s: Session, name: string, params: Value, timeout: int)
    ensures Plainly(s, DoIssue(s, name, params, timeout))
  {
  }

  lemma PlainNotify(s: Session, name: string, params: Value)
    ensures Plainly(s, DoNotify(s, name, params))
  {
  }

  lemma PlainStep(s: Session, a: Action)
    requires Enabled(s, a) && IsPlain(a)
    ensures Plainly(s, Do(s, a))
  {
    match a
    case Tick(to) =>
    case Start(step) => PlainStart(s, step);
    case Issue(name, params, timeout) => PlainIssue(s, name, params, timeout);
    case Notify(name, params) => PlainNotify(s, name, params);
    case Settle(i) =>
  }

  // ------------------------------------------------------------- the mutex

  /** While somebody holds pending_mu_ the map is left alone, but by the second half
      of the holder's own region. */
  lemma MapGuarded(s: Session, a: Action)
    requires Enabled(s, a) && !s.lock.Free? && Do(s, a).pending != s.pending
    ensures s.lock.ByCaller? && a == Call(s.lock.id, Unlock)
  {
    if ByOwnThread(a) {
      MapGuardedThread(s, a);
    } else {
      MapGuardedOther(s, a);
    }
  }

  lemma MapGuardedThread(s: Session, a: Action)
    requires Enabled(s, a) && ByOwnThread(a) && !s.lock.Free? && Do(s, a).pending != s.pending
    ensures s.lock.ByCaller? && a == Call(s.lock.id, Unlock)
  {
    match a
    case Call(id, step) => MapGuardedCall(s, id, step);
    case Timeout(step) => MapGuardedTime(s, step);
    case Close(t, step) => MapGuardedClose(s, t, step);
  }

  lemma MapGuardedOther(s: Session, a: Action)
    requires Enabled(s, a) && !ByOwnThread(a) && !s.lock.Free?
    ensures Do(s, a).pending == s.pending
  {
    match a
    case Work(k, step) => MapGuardedWork(s, k, step);
    case Receive(frame) => MapGuardedReceive(s, frame);
    case _ => PlainStep(s, a);
  }

  lemma MapGuardedCall(s: Session, id: RequestId, step: CallStep)
    requires CanCall(s, id, step) && !s.lock.Free? && DoCall(s, id, step).pending != s.pending
    ensures s.lock == ByCaller(id) && step.Unlock?
  {
  }

  lemma MapGuardedTime(s: Session, step: TimerStep)
    requires CanTime(s, step) && !s.lock.Free?
    ensures DoTime(s, step).pending == s.pending
  {
  }

  lemma MapGuardedClose(s: Session, t: nat, step: CloseStep)
    requires CanClose(s, t, step) && !s.lock.Free?
    ensures DoClose(s, t, step).pending == s.pending
  {
  }

  lemma MapGuardedWork(s: Session, k: nat, step: WorkStep)
    requires CanWork(s, k, step)
    ensures DoWork(s, k, step).pending == s.pending
  {
  }

  lemma MapGuardedReceive(s: Session, frame: Inbound)
    requires CanReceive(s, frame) && !s.lock.Free?
    ensures DoReceive(s, frame).pending == s.pending
  {
  }

  // ---------------------------------------------------------- settled once

  function SettlesOf(acts: seq<Action>, i: nat): nat {
    if acts == [] then 0 else (if acts[0] == Settle(i) then 1 else 0) + SettlesOf(acts[1..], i)
  }

  lemma SettledBy(s: Session, a: Action, i: nat)
    requires Enabled(s, a)
    ensures i in Do(s, a).settled <==> i in s.settled || a == Settle(i)
    ensures a == Settle(i) ==> i !in s.settled
  {
    if ByOwnThread(a) {
      SettledByThread(s, a);
    } else {
      SettledByOther(s, a, i);
    }
  }

  lemma SettledByThread(s: Session, a: Action)
    requires Enabled(s, a) && ByOwnThread(a)
    ensures Do(s, a).settled == s.settled
  {
    match a
    case Call(id, step) => SettledByCall(s, id, step);
    case Timeout(step) => SettledByTime(s, step);
    case Close(t, step) => SettledByClose(s, t, step);
  }

  lemma SettledByOther(s: Session, a: Action, i: nat)
    requires Enabled(s, a) && !ByOwnThread(a)
    ensures i in Do(s, a).settled <==> i in s.settled || a == Settle(i)
  {
    match a
    case Work(k, step) => SettledByWork(s, k, step);
    case Receive(frame) => SettledByReceive(s, frame);
    case Settle(j) =>
    case Tick(to) =>
    case Start(step) => SettledByStart(s, step);
    case Issue(name, params, timeout) => SettledByIssue(s, name, params, timeout);
    case Notify(name, params) => SettledByNotify(s, name, params);
  }

  lemma SettledByCall(s: Session, id: RequestId, step: CallStep)
    requires CanCall(s, id, step)
    ensures DoCall(s, id, step).settled == s.settled
  {
  }

  lemma SettledByTime(s: Session, step: TimerStep)
    requires CanTime(s, step)
    ensures DoTime(s, step).settled == s.settled
  {
  }

  lemma SettledByClose(s: Session, t: nat, step: CloseStep)
    requires CanClose(s, t, step)
    ensures DoClose(s, t, step).settled == s.settled
  {
  }

  lemma SettledByWork(s: Session, k: nat, step: WorkStep)
    requires CanWork(s, k, step)
    ensures DoWork(s, k, step).settled == s.settled
  {
  }

  lemma SettledByReceive(s: Session, frame: Inbound)
    ensures DoReceive(s, frame).settled == s.settled
  {
  }

  lemma SettledByStart(s: Session, step: StartStep)
    requires CanStart(s, step)
    ensures DoStart(s, step).settled == s.settled
  {
  }

  lemma SettledByIssue(s: Session, name: string, params: Value, timeout: int)
    ensures DoIssue(s, name, params, timeout).settled == s.settled
  {
  }

  lemma SettledByNotify(s: Session, name: string, params: Value)
    ensures DoNotify(s, name, params).settled == s.settled
  {
  }

  /** In no run is a promise settled twice, and it is settled when the run settles it. */
  lemma {:induction false} SettledOnce(s: Session, acts: seq<Action>, i: nat)
    requires Runs(s, acts)
    ensures i in End(s, acts).settled <==> i in s.settled || SettlesOf(acts, i) > 0
    ensures SettlesOf(acts, i) <= if i in s.settled then 0 else 1
    decreases |acts|
  {
    if acts != [] {
      SettledBy(s, acts[0], i);
      SettledOnce(Do(s, acts[0]), acts[1..], i);
    }
  }
}
