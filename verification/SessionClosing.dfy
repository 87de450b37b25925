// What close() achieves, and exactly when: start() must have cleared closed_.
module SessionClosing {
  import opened Json
  import opened JsonRpc
  import opened SessionMachine
  import opened SessionInvariants
  import opened SessionTheorems

  lemma RunOne(s: Session, a: Action)
    requires Enabled(s, a)
    ensures Runs(s, [a]) && End(s, [a]) == Do(s, a)
  {
    assert [a][1..] == [];
  }

  lemma {:induction false} RunThen(s: Session, p: seq<Action>, q: seq<Action>)
    requires Runs(s, p) && Runs(End(s, p), q)
    ensures Runs(s, p + q) && End(s, p + q) == End(End(s, p), q)
    decreases |p|
  {
    if p == [] {
      assert p + q == q;
    } else {
      assert (p + q)[1..] == p[1..] + q;
      RunThen(Do(s, p[0]), p[1..], q);
    }
  }

  /** s can be followed by a run that ends with something parked. */
  ghost predicate CanPark(s: Session) {
    exists acts :: Runs(s, acts) && End(s, acts).pending != map[]
  }

  /** The same without any step of close() or of the on_close hook. */
  ghost predicate CanParkQuietly(s: Session) {
    exists acts :: Runs(s, acts) && End(s, acts).pending != map[] && End(s, acts).closers == s.closers
  }

  lemma CanParkBefore(s: Session, a: Action)
    requires Enabled(s, a) && CanParkQuietly(Do(s, a)) && Do(s, a).closers == s.closers
    ensures CanParkQuietly(s)
  {
    var acts :| Runs(Do(s, a), acts) && End(Do(s, a), acts).pending != map[]
      && End(Do(s, a), acts).closers == Do(s, a).closers;
    RunOne(s, a);
    RunThen(s, [a], acts);
  }

  lemma CanParkNow(s: Session)
    requires s.pending != map[]
    ensures CanParkQuietly(s)
  {
    assert Runs(s, []) && End(s, []) == s;
  }

  lemma ParkByUnlock(s: Session, id: RequestId)
    requires Inv(s) && CanCall(s, id, Unlock) && s.calls[id] == Deciding(false)
    ensures CanParkQuietly(s)
  {
    var s' := DoCall(s, id, Unlock);
    assert id in s'.pending;
    CanParkNow(s');
    CanParkBefore(s, Call(id, Unlock));
  }

  function ParkActs(s: Session): seq<Action> {
    [Issue("", Json.Null, 0), Call(IntId(s.next), CallStep.Lock), Call(IntId(s.next), Unlock)]
  }

  /** A call with the mutex free and closed_ clear parks its request. */
  lemma ParkCall(s: Session, id: RequestId)
    requires CanCall(s, id, CallStep.Lock) && !s.closed && id !in s.pending
    ensures CanCall(DoCall(s, id, CallStep.Lock), id, Unlock)
    ensures var s' := DoCall(DoCall(s, id, CallStep.Lock), id, Unlock);
      && id in s'.pending && s'.closers == s.closers && s'.removed == s.removed && s'.settled == s.settled
      && s'.lock.Free? && s'.timer == Wake(s.timer)
  {
  }

  lemma ParkIssue(s: Session)
    requires Inv(s) && s.lock.Free? && !s.closed
    ensures var s1 := DoIssue(s, "", Json.Null, 0); var id := IntId(s.next);
      && CanCall(s1, id, CallStep.Lock) && !s1.closed && id !in s1.pending && s1.timer == s.timer
      && s1.closers == s.closers && s1.removed == s.removed && s1.settled == s.settled
  {
    assert IntId(s.next) !in s.pending;
  }

  /** An open session with the mutex free parks the next request it is given. */
  lemma ParkSteps(s: Session)
    requires Inv(s) && s.lock.Free? && !s.closed && IsInt64(s.next)
    ensures Runs(s, ParkActs(s))
    ensures var s' := End(s, ParkActs(s));
      && IntId(s.next) in s'.pending && s'.closers == s.closers
      && s'.removed == s.removed && s'.settled == s.settled
      && s'.lock.Free? && s'.timer == Wake(s.timer)
  {
    var id := IntId(s.next);
    var issue, take, park := Issue("", Json.Null, 0), Call(id, CallStep.Lock), Call(id, Unlock);
    var s1 := DoIssue(s, "", Json.Null, 0);
    ParkIssue(s);
    ParkCall(s1, id);
    var s2 := DoCall(s1, id, CallStep.Lock);
    RunOne(s, issue);
    RunOne(s1, take);
    RunOne(s2, park);
    RunThen(s, [issue], [take]);
    RunThen(s, [issue] + [take], [park]);
    assert ParkActs(s) == [issue] + [take] + [park];
  }

  lemma ParkWhenOpen(s: Session)
    requires Inv(s) && s.lock.Free? && !s.closed && IsInt64(s.next)
    ensures CanParkQuietly(s)
  {
    ParkSteps(s);
    assert Runs(s, ParkActs(s)) && End(s, ParkActs(s)).pending != map[];
  }

  lemma ParkByClear(s: Session)
    requires Inv(s) && s.lock.Free? && s.startPc.Claimed? && IsInt64(s.next)
    ensures CanParkQuietly(s)
  {
    InvStep(s, Start(Clear));
    ParkWhenOpen(DoStart(s, Clear));
    CanParkBefore(s, Start(Clear));
  }

  lemma ParkWhenFree(s: Session)
    requires Inv(s) && s.lock.Free? && !Shut(s) && IsInt64(s.next)
    ensures CanParkQuietly(s)
  {
    if s.pending != map[] {
      CanParkNow(s);
    } else if !s.closed {
      ParkWhenOpen(s);
    } else if s.startPc.Claimed? {
      ParkByClear(s);
    } else {
      InvStep(s, Start(Claim));
      ParkByClear(DoStart(s, Claim));
      CanParkBefore(s, Start(Claim));
    }
  }

  lemma ParkAfterTimer(s: Session)
    requires Inv(s) && s.lock.ByTimer? && !Shut(s) && IsInt64(s.next)
    ensures CanParkQuietly(s)
  {
    InvStep(s, Timeout(Decide));
    ParkWhenFree(DoTime(s, Decide));
    CanParkBefore(s, Timeout(Decide));
  }

  lemma ParkAfterRefusal(s: Session, id: RequestId)
    requires Inv(s) && s.lock == ByCaller(id) && s.calls[id] == Deciding(true) && !Shut(s) && IsInt64(s.next)
    ensures CanParkQuietly(s)
  {
    InvStep(s, Call(id, Unlock));
    ParkWhenFree(DoCall(s, id, Unlock));
    CanParkBefore(s, Call(id, Unlock));
  }

  lemma NotShutCanPark(s: Session)
    requires Inv(s) && !Shut(s) && IsInt64(s.next)
    ensures CanParkQuietly(s)
  {
    match s.lock
    case Free => ParkWhenFree(s);
    case ByCaller(id) =>
      if s.calls[id] == Deciding(false) {
        ParkByUnlock(s, id);
      } else {
        ParkAfterRefusal(s, id);
      }
    case ByTimer => ParkAfterTimer(s);
  }

  /** No future of a reachable state parks a request again if and only if the
      map is empty, closed_ is set, no caller is inside the region having read it
      clear, and start() has already cleared it. */
  lemma ShutExactly(s: Session)
    requires Inv(s) && IsInt64(s.next)
    ensures Shut(s) <==> !CanPark(s)
  {
    if Shut(s) {
      forall acts | Runs(s, acts) ensures End(s, acts).pending == map[] {
        ShutRun(s, acts);
      }
    } else {
      NotShutCanPark(s);
      var acts :| Runs(s, acts) && End(s, acts).pending != map[] && End(s, acts).closers == s.closers;
    }
  }

  // ------------------------------------------------- close() after start()

  /** A close() that begins once start() has cleared closed_ is not an early one. */
  lemma {:induction false} LateCloser(s: Session, acts: seq<Action>, t: nat)
    requires Inv(s) && StartPast(s) && t !in s.early && Runs(s, acts)
    ensures t !in End(s, acts).early
    decreases |acts|
  {
    if acts != [] {
      InvStep(s, acts[0]);
      StartStays(s, acts[0]);
      LateCloser(Do(s, acts[0]), acts[1..], t);
    }
  }

  lemma StartStays(s: Session, a: Action)
    requires StartPast(s) && Enabled(s, a)
    ensures StartPast(Do(s, a)) && Do(s, a).early == s.early
  {
    match a
    case Call(id, step) => StartStaysCall(s, id, step);
    case Work(k, step) => StartStaysWork(s, k, step);
    case Timeout(step) => StartStaysTime(s, step);
    case Close(t, step) => StartStaysClose(s, t, step);
    case Receive(frame) => assert DoReceive(s, frame).startPc == s.startPc;
    case Start(step) => assert DoStart(s, step).early == s.early;
    case _ =>
  }

  lemma StartStaysCall(s: Session, id: RequestId, step: CallStep)
    requires CanCall(s, id, step)
    ensures var s' := DoCall(s, id, step); s'.startPc == s.startPc && s'.early == s.early
  {
  }

  lemma StartStaysWork(s: Session, k: nat, step: WorkStep)
    requires CanWork(s, k, step)
    ensures var s' := DoWork(s, k, step); s'.startPc == s.startPc && s'.early == s.early
  {
  }

  lemma StartStaysTime(s: Session, step: TimerStep)
    requires CanTime(s, step)
    ensures var s' := DoTime(s, step); s'.startPc == s.startPc && s'.early == s.early
  {
  }

  lemma StartStaysClose(s: Session, t: nat, step: CloseStep)
    requires StartPast(s) && CanClose(s, t, step)
    ensures var s' := DoClose(s, t, step); s'.startPc == s.startPc && s'.early == s.early
  {
  }

  /** Take any close() that begins after start() has cleared closed_, whatever other
      close() calls came before. Once it has drained the map, the map stays empty
      whatever comes next, and every later request is refused. */
  lemma CloseSeals(defaultTimeout: int, before: seq<Action>, t: nat, during: seq<Action>, after: seq<Action>)
    requires Runs(Init(defaultTimeout), before)
    requires var s0 := End(Init(defaultTimeout), before); StartPast(s0) && t !in s0.closers && Runs(s0, during)
    requires var s := End(End(Init(defaultTimeout), before), during);
      t in s.closers && PastDrain(s.closers[t]) && Runs(s, after)
    ensures var s := End(End(Init(defaultTimeout), before), during); var s' := End(s, after);
      s'.closed && s'.pending == map[] && LateRefused(s, s')
  {
    var s0 := End(Init(defaultTimeout), before);
    InvInit(defaultTimeout);
    InvRun(Init(defaultTimeout), before);
    LateClose(s0, t, during);
    ShutRun(End(s0, during), after);
  }

  lemma LateClose(s0: Session, t: nat, during: seq<Action>)
    requires Inv(s0) && StartPast(s0) && t !in s0.closers && Runs(s0, during)
    ensures var s := End(s0, during);
      Inv(s) && (t in s.closers ==> CloseHolds(s, s.closers[t]))
  {
    InvRun(s0, during);
    LateCloser(s0, during, t);
  }

  /** A close() before start(), as far as its drain. */
  lemma EarlyDrain(s: Session) returns (acts: seq<Action>)
    requires s.lock.Free? && 0 !in s.closers && s.pending == map[]
    ensures Runs(s, acts)
    ensures var s' := End(s, acts);
      0 in s'.closers && s'.closers[0].Drained? && s'.startPc == s.startPc && s'.next == s.next
  {
    var s1 := DoClose(s, 0, Mark);
    RunOne(s, Close(0, Mark));
    RunOne(s1, Close(0, Drain([])));
    RunThen(s, [Close(0, Mark)], [Close(0, Drain([]))]);
    acts := [Close(0, Mark)] + [Close(0, Drain([]))];
  }

  /** A close() that ran before start() seals nothing: there are runs that drain
      the map in close() and go on to park a request. */
  lemma CloseBeforeStart(defaultTimeout: int)
    ensures exists acts :: Runs(Init(defaultTimeout), acts) && DrainedButOpen(End(Init(defaultTimeout), acts))
  {
    var s := Init(defaultTimeout);
    var acts := EarlyDrain(s);
    InvInit(defaultTimeout);
    InvRun(s, acts);
    ShutExactly(End(s, acts));
  }

  ghost predicate DrainedButOpen(s: Session) {
    (exists t :: t in s.closers && PastDrain(s.closers[t])) && CanPark(s)
  }

  // ----------------------------------------------- joining the timeout thread

  /** Steps that need nothing from outside: the timeout thread's own, the
      settling of promises already removed, and leaving the mutex. */
  predicate Internal(acts: seq<Action>) {
    forall i :: 0 <= i < |acts| ==>
      (acts[i].Timeout? && !acts[i].timer.Expire?) || acts[i].Settle? || (acts[i].Call? && acts[i].call.Unlock?)
  }

  ghost predicate CanExit(s: Session) {
    exists acts :: Runs(s, acts) && Internal(acts) && End(s, acts).timer.Exited?
  }

  lemma CanExitAfter(s: Session, before: seq<Action>)
    requires Runs(s, before) && Internal(before) && CanExit(End(s, before))
    ensures CanExit(s)
  {
    var acts :| Runs(End(s, before), acts) && Internal(acts) && End(End(s, before), acts).timer.Exited?;
    RunThen(s, before, acts);
    assert Internal(before + acts);
  }

  lemma CanExitBefore(s: Session, a: Action)
    requires Enabled(s, a) && Internal([a]) && CanExit(Do(s, a))
    ensures CanExit(s)
  {
    RunOne(s, a);
    CanExitAfter(s, [a]);
  }

  lemma ExitAtLoopHead(s: Session)
    requires s.timer == LoopHead(true)
    ensures CanExit(s)
  {
    RunOne(s, Timeout(Decide));
    assert Runs(s, [Timeout(Decide)]);
  }

  lemma ExitWhenFree(s: Session)
    requires s.lock.Free? && s.timer.Woken? && s.closed
    ensures CanExit(s)
  {
    ExitAtLoopHead(DoTime(s, Acquire));
    CanExitBefore(s, Timeout(Acquire));
  }

  lemma ExitWhenWoken(s: Session)
    requires Inv(s) && TimerFree(s) && s.timer.Woken?
    ensures CanExit(s)
  {
    if s.lock.ByCaller? {
      ExitWhenFree(DoCall(s, s.lock.id, Unlock));
      CanExitBefore(s, Call(s.lock.id, Unlock));
    } else {
      ExitWhenFree(s);
    }
  }

  function Unsettled(s: Session): set<nat> {
    set i | 0 <= i < |s.removed| && i !in s.settled
  }

  lemma ExitWhenRejected(s: Session)
    requires Inv(s) && TimerFree(s) && CanTime(s, Rejected)
    ensures CanExit(s)
  {
    InvStep(s, Timeout(Rejected));
    ExitWhenWoken(DoTime(s, Rejected));
    CanExitBefore(s, Timeout(Rejected));
  }

  lemma SettleOne(s: Session, i: nat)
    requires Inv(s) && i in Unsettled(s)
    ensures Enabled(s, Settle(i)) && Inv(DoSettle(s, i))
    ensures Unsettled(DoSettle(s, i)) < Unsettled(s)
  {
    InvStep(s, Settle(i));
    assert Unsettled(DoSettle(s, i)) == Unsettled(s) - {i};
  }

  /** A thread can settle all it holds, and that changes nothing else. */
  lemma {:induction false} SettleAll(s: Session, o: Owner) returns (acts: seq<Action>)
    requires Inv(s)
    ensures Runs(s, acts) && Internal(acts)
    ensures var s' := End(s, acts); Inv(s') && HoldsNone(s', o) && s' == s.(settled := s'.settled)
    decreases Unsettled(s)
  {
    if HoldsNone(s, o) {
      acts := [];
    } else {
      var i :| 0 <= i < |s.removed| && s.removed[i].owner == o && i !in s.settled;
      SettleOne(s, i);
      var rest := SettleAll(DoSettle(s, i), o);
      acts := SettleThen(s, i, rest);
    }
  }

  lemma SettleThen(s: Session, i: nat, rest: seq<Action>) returns (acts: seq<Action>)
    requires Enabled(s, Settle(i)) && Runs(DoSettle(s, i), rest) && Internal(rest)
    ensures Runs(s, acts) && Internal(acts) && End(s, acts) == End(DoSettle(s, i), rest)
  {
    RunOne(s, Settle(i));
    RunThen(s, [Settle(i)], rest);
    acts := [Settle(i)] + rest;
  }

  lemma ExitWhenRejecting(s: Session)
    requires Inv(s) && TimerFree(s) && s.timer.Rejecting?
    ensures CanExit(s)
  {
    var settle := SettleAll(s, Timer);
    ExitWhenRejected(End(s, settle));
    CanExitAfter(s, settle);
  }

  /** After the final notify of any close() that began once start() had cleared
      closed_, the timeout thread never waits again, and from wherever it stands its
      own steps, with nothing from outside, bring it to its exit: the join returns. */
  lemma TimerJoins(defaultTimeout: int, before: seq<Action>, t: nat, during: seq<Action>, after: seq<Action>)
    requires Runs(Init(defaultTimeout), before)
    requires var s0 := End(Init(defaultTimeout), before); StartPast(s0) && t !in s0.closers && Runs(s0, during)
    requires var s := End(End(Init(defaultTimeout), before), during);
      t in s.closers && PastFinal(s.closers[t]) && Runs(s, after)
    ensures var s' := End(End(End(Init(defaultTimeout), before), during), after);
      !s'.timer.Waiting? && (s'.timer.NotSpawned? || CanExit(s'))
  {
    var s0 := End(Init(defaultTimeout), before);
    InvInit(defaultTimeout);
    InvRun(Init(defaultTimeout), before);
    LateClose(s0, t, during);
    var s := End(s0, during);
    ShutRun(s, after);
    InvRun(s, after);
    ExitFromAnywhere(End(s, after));
  }

  lemma ExitFromAnywhere(s: Session)
    requires Inv(s) && TimerFree(s)
    ensures s.timer.NotSpawned? || CanExit(s)
  {
    match s.timer
    case NotSpawned =>
    case LoopHead(_) => ExitAtLoopHead(s);
    case Waiting(_) =>
    case Woken(_) => ExitWhenWoken(s);
    case Rejecting => ExitWhenRejecting(s);
    case Exited => assert Runs(s, []) && Internal([]) && End(s, []).timer.Exited?;
  }

  // ------------------------------------------------------------ deadlines

  /** In every reachable state a waiting timeout thread will be up by the
      earliest deadline parked, and no request was timed out before its own. */
  lemma TimeoutsOnTime(defaultTimeout: int, acts: seq<Action>)
    requires Runs(Init(defaultTimeout), acts)
    ensures var s := End(Init(defaultTimeout), acts);
      NeverOversleeps(s) && VerdictsSound(s)
  {
    InvInit(defaultTimeout);
    InvRun(Init(defaultTimeout), acts);
  }

  /** A call's deadline: its own timeout from now, or the default for a zero. */
  lemma DeadlineOf(s: Session, name: string, params: Value, timeout: int)
    ensures var s' := DoIssue(s, name, params, timeout); var id := IntId(s.next);
      && id in s'.requests
      && s'.requests[id].deadline == if timeout != 0 then s.now + timeout else s.now + s.defaultTimeout
  {
  }

  /** Whatever happens after a call, it is not timed out until its timeout, or for a
      zero the session's default, has passed since the call. */
  lemma NotTimedOutBefore(s: Session, name: string, params: Value, timeout: int, acts: seq<Action>, i: nat)
    requires Inv(s) && IsInt64(s.next) && Runs(DoIssue(s, name, params, timeout), acts)
    requires var s' := End(DoIssue(s, name, params, timeout), acts);
      i < |s'.removed| && s'.removed[i].id == IntId(s.next) && s'.removed[i].verdict.TimedOut?
    ensures End(DoIssue(s, name, params, timeout), acts).now >=
      s.now + if timeout != 0 then timeout else s.defaultTimeout
  {
    var s1 := DoIssue(s, name, params, timeout);
    InvStep(s, Issue(name, params, timeout));
    DeadlineOf(s, name, params, timeout);
    ExtendsRun(s1, acts);
    InvRun(s1, acts);
    assert VerdictsSound(End(s1, acts));
  }
}
