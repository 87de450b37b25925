// What close() leaves behind when it returns: who closes the transport, which
// workers can outlive it, the timeout thread; and what that thread waits for.
module SessionShutdown {
  import opened Wrappers
  import opened Json
  import opened JsonRpc
  import opened SessionMachine
  import opened SessionSteps
  import opened SessionInvariants
  import opened SessionTheorems
  import opened SessionClosing

  // ------------------------------------------------- who closes the transport

  predicate IsMark(a: Action) {
    a.Close? && a.close.Mark?
  }

  predicate IsHookStore(a: Action) {
    a.Close? && a.close.HookStore?
  }

  /** The step makes its close() the one that closes the transport. */
  ghost predicate MarksFirst(s: Session, a: Action)
    requires Enabled(s, a)
  {
    IsMark(a) && Do(s, a).closers[a.t] == Marked(true)
  }

  /** How many close() calls of a run close the transport. */
  ghost function Firsts(s: Session, acts: seq<Action>): nat
    requires Runs(s, acts)
    decreases |acts|
  {
    if acts == [] then 0
    else (if MarksFirst(s, acts[0]) then 1 else 0) + Firsts(Do(s, acts[0]), acts[1..])
  }

  /** Some close() sets the flag before any on_close hook does. */
  predicate CloseBeforeHook(acts: seq<Action>)
    decreases |acts|
  {
    acts != [] && (IsMark(acts[0]) || (!IsHookStore(acts[0]) && CloseBeforeHook(acts[1..])))
  }

  /** From start() on only these two set the flag, and nothing clears it. */
  lemma ClosedBy(s: Session, a: Action)
    requires StartPast(s) && Enabled(s, a)
    ensures Do(s, a).closed <==> s.closed || IsMark(a) || IsHookStore(a)
  {
    if ByOwnThread(a) {
      ClosedByThread(s, a);
    } else {
      ClosedByOther(s, a);
    }
  }

  lemma ClosedByThread(s: Session, a: Action)
    requires StartPast(s) && Enabled(s, a) && ByOwnThread(a)
    ensures Do(s, a).closed <==> s.closed || IsMark(a) || IsHookStore(a)
  {
    match a
    case Call(id, step) => ClosedByCall(s, id, step);
    case Timeout(step) => ClosedByTime(s, step);
    case Close(t, step) => ClosedByClose(s, t, step);
  }

  lemma ClosedByOther(s: Session, a: Action)
    requires StartPast(s) && Enabled(s, a) && !ByOwnThread(a)
    ensures Do(s, a).closed == s.closed
  {
    match a
    case Work(k, step) => ClosedByWork(s, k, step);
    case Receive(frame) => ClosedByReceive(s, frame);
    case _ => PlainStep(s, a);
  }

  lemma ClosedByClose(s: Session, t: nat, step: CloseStep)
    requires CanClose(s, t, step)
    ensures DoClose(s, t, step).closed <==> s.closed || step.Mark? || step.HookStore?
  {
  }

  lemma ClosedByReceive(s: Session, frame: Inbound)
    ensures DoReceive(s, frame).closed == s.closed
  {
  }

  lemma ClosedByCall(s: Session, id: RequestId, step: CallStep)
    requires CanCall(s, id, step)
    ensures DoCall(s, id, step).closed == s.closed
  {
  }

  lemma ClosedByWork(s: Session, k: nat, step: WorkStep)
    requires CanWork(s, k, step)
    ensures DoWork(s, k, step).closed == s.closed
  {
  }

  lemma ClosedByTime(s: Session, step: TimerStep)
    requires CanTime(s, step)
    ensures DoTime(s, step).closed == s.closed
  {
  }

  /** However many threads close a started session, the transport is closed by at
      most one of them; and by none if and only if the session was closed before, or
      the on_close hook came before every close(). */
  lemma {:induction false} TransportClosedOnce(s: Session, acts: seq<Action>)
    requires StartPast(s) && Runs(s, acts)
    ensures Firsts(s, acts) == if !s.closed && CloseBeforeHook(acts) then 1 else 0
    decreases |acts|
  {
    if acts != [] {
      StartStays(s, acts[0]);
      ClosedBy(s, acts[0]);
      TransportClosedOnce(Do(s, acts[0]), acts[1..]);
    }
  }

  // ------------------------------------------------------ workers and close()

  /** Every worker is at work on one of the frames received since n. */
  ghost predicate WorkersSince(s: Session, n: nat) {
    n <= s.received && forall k :: k in s.workers ==> n <= k < s.received
  }

  lemma WorkersSinceStep(s: Session, a: Action, n: nat)
    requires WorkersSince(s, n) && Enabled(s, a)
    ensures WorkersSince(Do(s, a), n)
  {
    if ByOwnThread(a) {
      SameWorkersThread(s, a);
    } else {
      WorkersSinceOther(s, a, n);
    }
  }

  lemma SameWorkersThread(s: Session, a: Action)
    requires Enabled(s, a) && ByOwnThread(a)
    ensures Do(s, a).workers == s.workers && Do(s, a).received == s.received
  {
    match a
    case Call(id, step) => SameWorkersCall(s, id, step);
    case Timeout(step) => SameWorkersTime(s, step);
    case Close(t, step) => SameWorkersClose(s, t, step);
  }

  lemma WorkersSinceOther(s: Session, a: Action, n: nat)
    requires WorkersSince(s, n) && Enabled(s, a) && !ByOwnThread(a)
    ensures WorkersSince(Do(s, a), n)
  {
    match a
    case Receive(frame) => WorkersSinceReceive(s, frame, n);
    case Work(k, step) => WorkersSinceWork(s, k, step, n);
    case _ => PlainStep(s, a);
  }

  lemma WorkersSinceReceive(s: Session, frame: Inbound, n: nat)
    requires WorkersSince(s, n)
    ensures WorkersSince(DoReceive(s, frame), n)
  {
  }

  lemma WorkersSinceWork(s: Session, k: nat, step: WorkStep, n: nat)
    requires WorkersSince(s, n) && CanWork(s, k, step)
    ensures WorkersSince(DoWork(s, k, step), n)
  {
  }

  lemma SameWorkersCall(s: Session, id: RequestId, step: CallStep)
    requires CanCall(s, id, step)
    ensures DoCall(s, id, step).workers == s.workers && DoCall(s, id, step).received == s.received
  {
  }

  lemma SameWorkersTime(s: Session, step: TimerStep)
    requires CanTime(s, step)
    ensures DoTime(s, step).workers == s.workers && DoTime(s, step).received == s.received
  {
  }

  lemma SameWorkersClose(s: Session, t: nat, step: CloseStep)
    requires CanClose(s, t, step)
    ensures DoClose(s, t, step).workers == s.workers && DoClose(s, t, step).received == s.received
  {
  }

  lemma {:induction false} WorkersSinceRun(s: Session, acts: seq<Action>, n: nat)
    requires WorkersSince(s, n) && Runs(s, acts)
    ensures WorkersSince(End(s, acts), n)
    decreases |acts|
  {
    if acts != [] {
      WorkersSinceStep(s, acts[0], n);
      WorkersSinceRun(Do(s, acts[0]), acts[1..], n);
    }
  }

  /** A worker that is there when close() returns, or at any time after its wait for
      them, is at work on a frame received after that wait. */
  lemma OnlyLateWorkers(s: Session, t: nat, after: seq<Action>, k: nat)
    requires CanClose(s, t, Quiesce) && Runs(DoClose(s, t, Quiesce), after)
    requires k in End(DoClose(s, t, Quiesce), after).workers
    ensures s.received <= k < End(DoClose(s, t, Quiesce), after).received
  {
    WorkersSinceRun(DoClose(s, t, Quiesce), after, s.received);
  }

  lemma RunsOn(s: Session, acts: seq<Action>, a: Action)
    requires Runs(s, acts) && Enabled(End(s, acts), a)
    ensures Runs(s, acts + [a]) && End(s, acts + [a]) == Do(End(s, acts), a)
  {
    RunOne(End(s, acts), a);
    RunThen(s, acts, [a]);
  }

  /** start(), and close() as far as its wait for the workers, of which it finds none. */
  lemma StartAndWait(defaultTimeout: int) returns (acts: seq<Action>)
    ensures Runs(Init(defaultTimeout), acts)
    ensures var s := End(Init(defaultTimeout), acts);
      && s.closed && s.lock.Free? && s.timer == Woken(None)
      && s.closers == map[0 := Quiet(true)] && s.received == 0 && s.workers == map[]
  {
    var s := Init(defaultTimeout);
    acts := [Start(Claim)];
    RunOne(s, Start(Claim));
    RunsOn(s, acts, Start(Clear));
    acts := acts + [Start(Clear)];
    RunsOn(s, acts, Start(Spawn));
    acts := acts + [Start(Spawn)];
    RunsOn(s, acts, Close(0, Mark));
    acts := acts + [Close(0, Mark)];
    RunsOn(s, acts, Close(0, Drain([])));
    acts := acts + [Close(0, Drain([]))];
    RunsOn(s, acts, Close(0, Quiesce));
    acts := acts + [Close(0, Quiesce)];
  }

  /** The rest of close(), the timeout thread leaving meanwhile. */
  lemma NotifyAfter(s: Session) returns (acts: seq<Action>)
    requires s.closed && s.lock.Free? && s.timer == Woken(None) && s.closers == map[0 := Quiet(true)]
    ensures Runs(s, acts)
    ensures End(s, acts) == s.(closers := map[0 := Notified], lock := ByTimer, timer := LoopHead(true))
  {
    acts := [Close(0, Final), Timeout(Acquire)];
    RunOne(s, Close(0, Final));
    RunsOn(s, [Close(0, Final)], Timeout(Acquire));
    assert acts == [Close(0, Final)] + [Timeout(Acquire)];
  }

  lemma JoinAfter(s: Session) returns (acts: seq<Action>)
    requires s.lock.ByTimer? && s.timer == LoopHead(true) && s.closers == map[0 := Notified]
    ensures Runs(s, acts)
    ensures End(s, acts).closers == map[0 := Joined] && End(s, acts).workers == s.workers
  {
    acts := [Timeout(Decide), Close(0, Join)];
    RunOne(s, Timeout(Decide));
    RunsOn(s, [Timeout(Decide)], Close(0, Join));
    assert acts == [Timeout(Decide)] + [Close(0, Join)];
  }

  /** There can be one: a request that is received after the wait starts a worker
      that outlives close(). */
  lemma WorkerMayOutlive(defaultTimeout: int, id: RequestId, name: string) returns (acts: seq<Action>)
    ensures Runs(Init(defaultTimeout), acts)
    ensures var s := End(Init(defaultTimeout), acts);
      s.closers == map[0 := Joined] && 0 in s.workers && s.workers[0].Handling?
  {
    var s0, frame := Init(defaultTimeout), Receive(Frame(Request(id, name, None)));
    var before := StartAndWait(defaultTimeout);
    RunsOn(s0, before, frame);
    var late := before + [frame];
    var wait := NotifyAfter(End(s0, late));
    RunThen(s0, late, wait);
    var rest := JoinAfter(End(s0, late + wait));
    RunThen(s0, late + wait, rest);
    acts := late + wait + rest;
  }

  // ------------------------------------------------------- promises in one's hands

  /** The steps that put removed entries into the hands of o. */
  predicate TakesFor(a: Action, o: Owner) {
    match o
    case Caller => a.Call?
    case Reader => a.Receive?
    case Timer => a.Timeout? && a.timer.Expire?
    case Closer(t) => a.Close? && a.t == t && (a.close.HookDrain? || a.close.Drain?)
  }

  /** A thread that has settled all it holds is given more by its own steps only. */
  lemma HoldsNoneStep(s: Session, a: Action, o: Owner)
    requires HoldsNone(s, o) && Enabled(s, a) && !TakesFor(a, o)
    ensures HoldsNone(Do(s, a), o)
  {
    if ByOwnThread(a) {
      HoldsNoneThread(s, a, o);
    } else {
      HoldsNoneOther(s, a, o);
    }
  }

  lemma HoldsNoneThread(s: Session, a: Action, o: Owner)
    requires HoldsNone(s, o) && Enabled(s, a) && ByOwnThread(a) && !TakesFor(a, o)
    ensures HoldsNone(Do(s, a), o)
  {
    match a
    case Call(id, step) => HoldsNoneCall(s, id, step, o);
    case Timeout(step) => HoldsNoneTime(s, step, o);
    case Close(t, step) => HoldsNoneClose(s, t, step, o);
  }

  lemma HoldsNoneOther(s: Session, a: Action, o: Owner)
    requires HoldsNone(s, o) && Enabled(s, a) && !ByOwnThread(a) && !TakesFor(a, o)
    ensures HoldsNone(Do(s, a), o)
  {
    match a
    case Work(k, step) => HoldsNoneWork(s, k, step, o);
    case Receive(frame) => HoldsNoneReceive(s, frame, o);
    case _ => HoldsNonePlain(s, a, o);
  }

  lemma HoldsNoneCall(s: Session, id: RequestId, step: CallStep, o: Owner)
    requires HoldsNone(s, o) && CanCall(s, id, step) && !o.Caller?
    ensures HoldsNone(DoCall(s, id, step), o)
  {
  }

  lemma HoldsNoneTime(s: Session, step: TimerStep, o: Owner)
    requires HoldsNone(s, o) && CanTime(s, step) && !(o.Timer? && step.Expire?)
    ensures HoldsNone(DoTime(s, step), o)
  {
  }

  lemma HoldsNoneClose(s: Session, t: nat, step: CloseStep, o: Owner)
    requires HoldsNone(s, o) && CanClose(s, t, step) && !TakesFor(Close(t, step), o)
    ensures HoldsNone(DoClose(s, t, step), o)
  {
  }

  lemma HoldsNoneWork(s: Session, k: nat, step: WorkStep, o: Owner)
    requires HoldsNone(s, o) && CanWork(s, k, step)
    ensures HoldsNone(DoWork(s, k, step), o)
  {
  }

  lemma HoldsNoneReceive(s: Session, frame: Inbound, o: Owner)
    requires HoldsNone(s, o) && !o.Reader?
    ensures HoldsNone(DoReceive(s, frame), o)
  {
  }

  lemma HoldsNonePlain(s: Session, a: Action, o: Owner)
    requires HoldsNone(s, o) && Enabled(s, a) && IsPlain(a)
    ensures HoldsNone(Do(s, a), o)
  {
    PlainStep(s, a);
  }

  /** This close() or hook has drained the map, and told all it took out. */
  ghost predicate HasTold(s: Session, t: nat) {
    t in s.closers && !s.closers[t].Marked? && HoldsNone(s, Closer(t))
  }

  lemma HasToldStep(s: Session, a: Action, t: nat)
    requires HasTold(s, t) && Enabled(s, a)
    ensures HasTold(Do(s, a), t)
  {
    HoldsNoneStep(s, a, Closer(t));
    ClosersStep(s, a, t);
  }

  lemma ClosersStep(s: Session, a: Action, t: nat)
    requires t in s.closers && !s.closers[t].Marked? && Enabled(s, a)
    ensures t in Do(s, a).closers && !Do(s, a).closers[t].Marked?
  {
    if a.Close? {
      ClosersClose(s, a.t, a.close, t);
    } else {
      ClosersOther(s, a);
    }
  }

  lemma ClosersClose(s: Session, t: nat, step: CloseStep, u: nat)
    requires u in s.closers && !s.closers[u].Marked? && CanClose(s, t, step)
    ensures u in DoClose(s, t, step).closers && !DoClose(s, t, step).closers[u].Marked?
  {
  }

  lemma ClosersOther(s: Session, a: Action)
    requires Enabled(s, a) && !a.Close?
    ensures Do(s, a).closers == s.closers
  {
    match a
    case Call(id, step) => ClosersCall(s, id, step);
    case Timeout(step) => ClosersTime(s, step);
    case Work(k, step) => ClosersWork(s, k, step);
    case Receive(frame) => ClosersReceive(s, frame);
    case _ => PlainStep(s, a);
  }

  lemma ClosersCall(s: Session, id: RequestId, step: CallStep)
    requires CanCall(s, id, step)
    ensures DoCall(s, id, step).closers == s.closers
  {
  }

  lemma ClosersTime(s: Session, step: TimerStep)
    requires CanTime(s, step)
    ensures DoTime(s, step).closers == s.closers
  {
  }

  lemma ClosersWork(s: Session, k: nat, step: WorkStep)
    requires CanWork(s, k, step)
    ensures DoWork(s, k, step).closers == s.closers
  {
  }

  lemma ClosersReceive(s: Session, frame: Inbound)
    ensures DoReceive(s, frame).closers == s.closers
  {
  }

  lemma {:induction false} HasToldRun(s: Session, acts: seq<Action>, t: nat)
    requires HasTold(s, t) && Runs(s, acts)
    ensures HasTold(End(s, acts), t)
    decreases |acts|
  {
    if acts != [] {
      HasToldStep(s, acts[0], t);
      HasToldRun(Do(s, acts[0]), acts[1..], t);
    }
  }

  /** A close() that has got past its wait, or a hook that has stored the flag, has
      settled every promise it ever took out. */
  lemma CloserTellsAll(s: Session, t: nat, step: CloseStep, after: seq<Action>, i: nat)
    requires (step.Quiesce? || step.HookStore?) && CanClose(s, t, step) && Runs(DoClose(s, t, step), after)
    requires var s' := End(DoClose(s, t, step), after); i < |s'.removed| && s'.removed[i].owner == Closer(t)
    ensures i in End(DoClose(s, t, step), after).settled
  {
    HasToldRun(DoClose(s, t, step), after, t);
  }

  /** So has the timeout thread, except while it is about to. */
  ghost predicate TimerHasTold(s: Session) {
    !s.timer.Rejecting? ==> HoldsNone(s, Timer)
  }

  lemma TimerHasToldStep(s: Session, a: Action)
    requires Inv(s) && TimerHasTold(s) && Enabled(s, a)
    ensures TimerHasTold(Do(s, a))
  {
    if TakesFor(a, Timer) {
      assert DoTime(s, a.timer).timer.Rejecting?;
    } else if !s.timer.Rejecting? {
      HoldsNoneStep(s, a, Timer);
    } else if a.Timeout? {
      HoldsNoneTime(s, Rejected, Timer);
    } else {
      RejectingStays(s, a);
    }
  }

  lemma RejectingStays(s: Session, a: Action)
    requires LockAgrees(s) && s.timer.Rejecting? && Enabled(s, a) && !a.Timeout?
    ensures Do(s, a).timer.Rejecting?
  {
    match a
    case Call(id, step) => RejectingCall(s, id, step);
    case Close(t, step) => RejectingClose(s, t, step);
    case Work(k, step) => RejectingWork(s, k, step);
    case Receive(frame) => RejectingReceive(s, frame);
    case _ => PlainStep(s, a);
  }

  lemma RejectingCall(s: Session, id: RequestId, step: CallStep)
    requires s.timer.Rejecting? && CanCall(s, id, step)
    ensures DoCall(s, id, step).timer.Rejecting?
  {
  }

  lemma RejectingClose(s: Session, t: nat, step: CloseStep)
    requires s.timer.Rejecting? && CanClose(s, t, step)
    ensures DoClose(s, t, step).timer.Rejecting?
  {
  }

  lemma RejectingWork(s: Session, k: nat, step: WorkStep)
    requires s.timer.Rejecting? && CanWork(s, k, step)
    ensures DoWork(s, k, step).timer.Rejecting?
  {
  }

  lemma RejectingReceive(s: Session, frame: Inbound)
    requires s.timer.Rejecting?
    ensures DoReceive(s, frame).timer.Rejecting?
  {
  }

  lemma {:induction false} TimerHasToldRun(s: Session, acts: seq<Action>)
    requires Inv(s) && TimerHasTold(s) && Runs(s, acts)
    ensures TimerHasTold(End(s, acts))
    decreases |acts|
  {
    if acts != [] {
      InvStep(s, acts[0]);
      TimerHasToldStep(s, acts[0]);
      TimerHasToldRun(Do(s, acts[0]), acts[1..]);
    }
  }

  // ---------------------------------------------------------- the timeout thread

  ghost predicate TimerOver(s: Session) {
    s.startPc.Running? && s.timer.Exited?
  }

  lemma TimerOverStep(s: Session, a: Action)
    requires TimerOver(s) && Enabled(s, a)
    ensures TimerOver(Do(s, a))
  {
    if ByOwnThread(a) {
      TimerOverThread(s, a);
    } else {
      TimerOverOther(s, a);
    }
  }

  lemma TimerOverThread(s: Session, a: Action)
    requires TimerOver(s) && Enabled(s, a) && ByOwnThread(a)
    ensures TimerOver(Do(s, a))
  {
    match a
    case Call(id, step) => TimerOverCall(s, id, step);
    case Timeout(step) =>
    case Close(t, step) => TimerOverClose(s, t, step);
  }

  lemma TimerOverOther(s: Session, a: Action)
    requires TimerOver(s) && Enabled(s, a) && !ByOwnThread(a)
    ensures TimerOver(Do(s, a))
  {
    match a
    case Work(k, step) => TimerOverWork(s, k, step);
    case Receive(frame) => TimerOverReceive(s, frame);
    case _ =>
  }

  lemma TimerOverCall(s: Session, id: RequestId, step: CallStep)
    requires TimerOver(s) && CanCall(s, id, step)
    ensures TimerOver(DoCall(s, id, step))
  {
  }

  lemma TimerOverClose(s: Session, t: nat, step: CloseStep)
    requires TimerOver(s) && CanClose(s, t, step)
    ensures TimerOver(DoClose(s, t, step))
  {
  }

  lemma TimerOverWork(s: Session, k: nat, step: WorkStep)
    requires TimerOver(s) && CanWork(s, k, step)
    ensures TimerOver(DoWork(s, k, step))
  {
  }

  lemma TimerOverReceive(s: Session, frame: Inbound)
    requires TimerOver(s)
    ensures TimerOver(DoReceive(s, frame))
  {
  }

  lemma {:induction false} TimerOverRun(s: Session, acts: seq<Action>)
    requires TimerOver(s) && Runs(s, acts)
    ensures TimerOver(End(s, acts))
    decreases |acts|
  {
    if acts != [] {
      TimerOverStep(s, acts[0]);
      TimerOverRun(Do(s, acts[0]), acts[1..]);
    }
  }

  /** Once close() has joined it, the timeout thread of a started session is over for
      good. */
  lemma JoinedIsOver(s: Session, t: nat, after: seq<Action>)
    requires Inv(s) && s.startPc.Running? && CanClose(s, t, Join) && Runs(DoClose(s, t, Join), after)
    ensures End(DoClose(s, t, Join), after).timer.Exited?
  {
    TimerOverRun(DoClose(s, t, Join), after);
  }

  /** While it waits, it waits for exactly the earliest parked deadline, or untimed
      when nothing is parked. */
  ghost predicate WaitsExactly(s: Session) {
    s.timer.Waiting? ==>
      if s.timer.wake.None? then s.pending == map[] else IsSoonest(s.pending, s.timer.wake.value)
  }

  predicate NoRefusal(acts: seq<Action>) {
    forall i :: 0 <= i < |acts| ==> !(acts[i].Call? && acts[i].call.Reclaim?)
  }

  lemma WaitsCall(s: Session, id: RequestId, step: CallStep)
    requires WaitsExactly(s) && CanCall(s, id, step) && !step.Reclaim?
    ensures WaitsExactly(DoCall(s, id, step))
  {
  }

  lemma WaitsTime(s: Session, step: TimerStep)
    requires WaitsExactly(s) && CanTime(s, step)
    ensures WaitsExactly(DoTime(s, step))
  {
  }

  lemma WaitsClose(s: Session, t: nat, step: CloseStep)
    requires WaitsExactly(s) && CanClose(s, t, step)
    ensures WaitsExactly(DoClose(s, t, step))
  {
  }

  lemma WaitsWork(s: Session, k: nat, step: WorkStep)
    requires WaitsExactly(s) && CanWork(s, k, step)
    ensures WaitsExactly(DoWork(s, k, step))
  {
  }

  lemma WaitsReceive(s: Session, frame: Inbound)
    requires WaitsExactly(s)
    ensures WaitsExactly(DoReceive(s, frame))
  {
  }

  lemma WaitsStep(s: Session, a: Action)
    requires WaitsExactly(s) && Enabled(s, a) && !(a.Call? && a.call.Reclaim?)
    ensures WaitsExactly(Do(s, a))
  {
    if ByOwnThread(a) {
      WaitsThread(s, a);
    } else {
      WaitsOther(s, a);
    }
  }

  lemma WaitsThread(s: Session, a: Action)
    requires WaitsExactly(s) && Enabled(s, a) && ByOwnThread(a) && !(a.Call? && a.call.Reclaim?)
    ensures WaitsExactly(Do(s, a))
  {
    match a
    case Call(id, step) => WaitsCall(s, id, step);
    case Timeout(step) => WaitsTime(s, step);
    case Close(t, step) => WaitsClose(s, t, step);
  }

  lemma WaitsOther(s: Session, a: Action)
    requires WaitsExactly(s) && Enabled(s, a) && !ByOwnThread(a)
    ensures WaitsExactly(Do(s, a))
  {
    match a
    case Work(k, step) => WaitsWork(s, k, step);
    case Receive(frame) => WaitsReceive(s, frame);
    case _ => PlainStep(s, a);
  }

  /** Whatever else happens, so long as no refused send takes its entry back, which
      wakes nobody. */
  lemma {:induction false} WaitsExactlyRun(s: Session, acts: seq<Action>)
    requires WaitsExactly(s) && Runs(s, acts) && NoRefusal(acts)
    ensures WaitsExactly(End(s, acts))
    decreases |acts|
  {
    if acts != [] {
      WaitsStep(s, acts[0]);
      WaitsExactlyRun(Do(s, acts[0]), acts[1..]);
    }
  }

  /** Where it waits exactly, a wait that runs out always finds a request due. */
  lemma ExpiryFindsDue(s: Session, order: seq<RequestId>)
    requires WaitsExactly(s) && s.timer.Waiting? && CanTime(s, Expire(order))
    ensures order != []
  {
    var id :| id in s.pending && s.pending[id].deadline == s.timer.wake.value;
    assert id in Due(s.pending, s.now);
    assert multiset(order)[id] > 0;
  }
}
