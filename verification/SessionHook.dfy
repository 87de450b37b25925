// The transport's on_close hook: it drains the map before it stores closed_, and
// what is parked in between stays parked.
module SessionHook {
  import opened Wrappers
  import opened Json
  import opened JsonRpc
  import opened SessionMachine
  import opened SessionInvariants
  import opened SessionTheorems
  import opened SessionClosing

  // ------------------------------------------------------------- the gap

  /** The hook has finished, and something is parked. */
  ghost predicate OutlivesHook(s: Session, t: nat) {
    s.closed && t in s.closers && s.closers[t].HookDone? && s.pending != map[]
  }

  ghost predicate CanOutlive(s: Session, t: nat) {
    exists acts :: Runs(s, acts) && OutlivesHook(End(s, acts), t)
  }

  lemma FinishHook(s: Session, t: nat) returns (acts: seq<Action>)
    requires Inv(s) && t in s.closers && s.closers[t].HookDrained? && s.pending != map[]
    ensures Runs(s, acts) && OutlivesHook(End(s, acts), t)
  {
    var settle := SettleAll(s, Closer(t));
    var s' := End(s, settle);
    RunOne(s', Close(t, HookStore));
    RunThen(s, settle, [Close(t, HookStore)]);
    acts := settle + [Close(t, HookStore)];
  }

  /** From the hook's drain on, a request can be parked that is still there when the
      hook has stored closed_ and finished, if and only if the session is not shut. */
  lemma HookGap(s: Session, t: nat)
    requires Inv(s) && IsInt64(s.next) && t in s.closers && s.closers[t].HookDrained?
    ensures CanOutlive(s, t) <==> !Shut(s)
  {
    if Shut(s) {
      forall acts | Runs(s, acts) ensures !OutlivesHook(End(s, acts), t) {
        ShutRun(s, acts);
      }
    } else {
      NotShutCanPark(s);
      var park :| Runs(s, park) && End(s, park).pending != map[] && End(s, park).closers == s.closers;
      InvRun(s, park);
      var finish := FinishHook(End(s, park), t);
      RunThen(s, park, finish);
      assert Runs(s, park + finish);
    }
  }

  // -------------------------------------------------- who takes a request out

  /** The steps that take a parked id out. */
  predicate TakesOut(s: Session, a: Action, id: RequestId)
    requires id in s.pending
  {
    match a
    case Close(_, step) => step.HookDrain? || step.Drain?
    case Receive(frame) => IsResponseTo(frame, id)
    case Call(x, step) => x == id && step.Reclaim?
    case Timeout(step) => step.Expire? && s.pending[id].deadline <= s.now
    case _ => false
  }

  predicate IsResponseTo(frame: Inbound, id: RequestId) {
    frame.Frame? && frame.m.Response? && frame.m.target == Some(id)
  }

  lemma CallLeaves(s: Session, x: RequestId, step: CallStep, id: RequestId)
    requires CanCall(s, x, step) && id in s.pending
    ensures id in DoCall(s, x, step).pending <==> !(x == id && step.Reclaim?)
  {
  }

  lemma CloseLeaves(s: Session, t: nat, step: CloseStep, id: RequestId)
    requires CanClose(s, t, step) && id in s.pending
    ensures id in DoClose(s, t, step).pending <==> !(step.HookDrain? || step.Drain?)
  {
  }

  lemma TimeLeaves(s: Session, step: TimerStep, id: RequestId)
    requires CanTime(s, step) && id in s.pending
    ensures id in DoTime(s, step).pending <==> !(step.Expire? && s.pending[id].deadline <= s.now)
  {
  }

  lemma ReceiveLeaves(s: Session, frame: Inbound, id: RequestId)
    requires id in s.pending
    ensures id in DoReceive(s, frame).pending <==> !IsResponseTo(frame, id)
  {
  }

  lemma StartLeaves(s: Session, step: StartStep)
    requires CanStart(s, step)
    ensures DoStart(s, step).pending == s.pending
  {
  }

  lemma WorkLeaves(s: Session, k: nat, step: WorkStep)
    requires CanWork(s, k, step)
    ensures DoWork(s, k, step).pending == s.pending && DoWork(s, k, step).timer == s.timer
  {
  }

  /** The steps that may take a parked entry out. */
  predicate Leaves(a: Action) {
    a.Call? || a.Close? || a.Timeout? || a.Receive?
  }

  lemma OthersLeaveNone(s: Session, a: Action)
    requires Enabled(s, a) && !Leaves(a)
    ensures Do(s, a).pending == s.pending
  {
    match a
    case Work(k, step) => WorkLeaves(s, k, step);
    case Start(step) => StartLeaves(s, step);
    case Tick(to) => assert Do(s, a) == DoTick(s, to);
    case Issue(name, params, timeout) => assert Do(s, a) == DoIssue(s, name, params, timeout);
    case Notify(name, params) => assert Do(s, a) == DoNotify(s, name, params);
    case Settle(i) => assert Do(s, a) == DoSettle(s, i);
  }

  /** A parked request leaves the map by a drain, a response to it, its own caller
      after a refused send, or an expiry at or after its deadline: by nothing else. */
  lemma LeavesExactly(s: Session, a: Action, id: RequestId)
    requires Enabled(s, a) && id in s.pending
    ensures id in Do(s, a).pending <==> !TakesOut(s, a, id)
  {
    match a
    case Call(x, step) => CallLeaves(s, x, step, id);
    case Close(t, step) => CloseLeaves(s, t, step, id);
    case Timeout(step) => TimeLeaves(s, step, id);
    case Receive(frame) => ReceiveLeaves(s, frame, id);
    case _ => OthersLeaveNone(s, a);
  }

  // ------------------------------------------------- what it is then told

  /** The removal a step makes of a parked request. */
  predicate Fits(a: Action, r: Removal) {
    match a
    case Close(t, step) =>
      && r.owner == Closer(t)
      && (step.HookDrain? ==> r.verdict.TransportClosed?)
      && (step.Drain? ==> r.verdict.SessionClosed?)
    case Receive(frame) =>
      && r.owner.Reader? && frame.Frame? && frame.m.Response?
      && (frame.m.outcome.Success? ==> r.verdict == Resolved(frame.m.outcome.result))
      && (frame.m.outcome.Failure? ==> r.verdict == PeerError(frame.m.outcome.error))
    case Call(_, _) => r.owner.Caller? && r.verdict.SendFailed?
    case Timeout(_) => r.owner.Timer? && r.verdict.TimedOut?
    case _ => false
  }

  ghost predicate Told(s: Session, a: Action, s': Session, id: RequestId) {
    exists i :: |s.removed| <= i < |s'.removed| && s'.removed[i].id == id && Fits(a, s'.removed[i])
  }

  lemma BulkTold(s: Session, a: Action, s': Session, order: seq<RequestId>, v: Verdict, o: Owner, id: RequestId)
    requires s'.removed == s.removed + Removals(order, v, o) && id in order && Fits(a, Removal(id, v, o))
    ensures Told(s, a, s', id)
  {
    var k :| 0 <= k < |order| && order[k] == id;
    assert s'.removed[|s.removed| + k] == Removal(id, v, o);
  }

  lemma CloseTold(s: Session, t: nat, step: CloseStep, id: RequestId)
    requires CanClose(s, t, step) && (step.HookDrain? || step.Drain?) && id in s.pending
    ensures Told(s, Close(t, step), DoClose(s, t, step), id)
  {
    EnumerationFacts(step.order, s.pending.Keys);
    BulkTold(s, Close(t, step), DoClose(s, t, step), step.order,
             if step.Drain? then SessionClosed else TransportClosed, Closer(t), id);
  }

  lemma TimeTold(s: Session, order: seq<RequestId>, id: RequestId)
    requires CanTime(s, Expire(order)) && id in s.pending && s.pending[id].deadline <= s.now
    ensures Told(s, Timeout(Expire(order)), ExpireDue(s, order), id)
  {
    EnumerationFacts(order, Due(s.pending, s.now));
    BulkTold(s, Timeout(Expire(order)), ExpireDue(s, order), order, TimedOut, Timer, id);
  }

  lemma LastTold(s: Session, a: Action, s': Session, r: Removal)
    requires s'.removed == s.removed + [r] && Fits(a, r)
    ensures Told(s, a, s', r.id)
  {
    assert s'.removed[|s.removed|] == r;
  }

  lemma ReceiveTold(s: Session, frame: Inbound, id: RequestId)
    requires id in s.pending && IsResponseTo(frame, id)
    ensures Told(s, Receive(frame), DoReceive(s, frame), id)
  {
    LastTold(s, Receive(frame), DoReceive(s, frame), Removal(id, VerdictOf(frame.m.outcome), Reader));
  }

  lemma ReclaimTold(s: Session, id: RequestId)
    requires id in s.pending && CanCall(s, id, Reclaim)
    ensures Told(s, Call(id, Reclaim), DoCall(s, id, Reclaim), id)
  {
    LastTold(s, Call(id, Reclaim), DoCall(s, id, Reclaim), Removal(id, SendFailed, Caller));
  }

  /** A parked request that leaves the map is told why: closed session, closed
      transport, the peer's very result or error, refused send, or timeout. */
  lemma LeavesTold(s: Session, a: Action, id: RequestId)
    requires Enabled(s, a) && id in s.pending && id !in Do(s, a).pending
    ensures Told(s, a, Do(s, a), id)
  {
    LeavesExactly(s, a, id);
    match a
    case Call(x, step) => ReclaimTold(s, id);
    case Close(t, step) => CloseTold(s, t, step, id);
    case Timeout(step) => TimeTold(s, step.order, id);
    case Receive(frame) => ReceiveTold(s, frame, id);
  }

  // ----------------------------------------------------------- left behind

  /** The timeout thread has left its loop and the request is still parked. */
  ghost predicate LeftBehind(s: Session, id: RequestId) {
    s.timer.Exited? && id in s.pending
  }

  /** What could still take it out. */
  predicate Rescues(a: Action, id: RequestId) {
    match a
    case Close(_, step) => step.HookDrain? || step.Drain?
    case Receive(frame) => IsResponseTo(frame, id)
    case Call(x, step) => x == id && step.Reclaim?
    case _ => false
  }

  lemma ExitedCall(s: Session, id: RequestId, step: CallStep)
    requires s.timer.Exited? && CanCall(s, id, step)
    ensures DoCall(s, id, step).timer.Exited?
  {
  }

  lemma ExitedClose(s: Session, t: nat, step: CloseStep)
    requires s.timer.Exited? && CanClose(s, t, step)
    ensures DoClose(s, t, step).timer.Exited?
  {
  }

  lemma ExitedReceive(s: Session, frame: Inbound)
    requires s.timer.Exited?
    ensures DoReceive(s, frame).timer.Exited?
  {
  }

  lemma ExitedForGood(s: Session, a: Action)
    requires Inv(s) && s.timer.Exited? && Enabled(s, a)
    ensures Do(s, a).timer.Exited?
  {
    match a
    case Call(id, step) => ExitedCall(s, id, step);
    case Close(t, step) => ExitedClose(s, t, step);
    case Work(k, step) => WorkLeaves(s, k, step);
    case Receive(frame) => ExitedReceive(s, frame);
    case _ =>
  }

  /** A request left behind never times out: however far the clock moves it stays
      parked until a drain of close(), a second hook, a response or its own caller. */
  lemma {:induction false} StaysBehind(s: Session, acts: seq<Action>, id: RequestId)
    requires Inv(s) && LeftBehind(s, id) && Runs(s, acts)
    requires forall i :: 0 <= i < |acts| ==> !Rescues(acts[i], id)
    ensures LeftBehind(End(s, acts), id)
    decreases |acts|
  {
    if acts != [] {
      assert !Rescues(acts[0], id);
      LeavesExactly(s, acts[0], id);
      ExitedForGood(s, acts[0]);
      InvStep(s, acts[0]);
      StaysBehind(Do(s, acts[0]), acts[1..], id);
    }
  }

  /** The drain of close() then takes it out, to be told "session closed". */
  lemma CloseRejects(s: Session, t: nat, order: seq<RequestId>, id: RequestId)
    requires id in s.pending && CanClose(s, t, Drain(order))
    ensures var s' := DoClose(s, t, Drain(order));
      id !in s'.pending
      && exists i :: |s.removed| <= i < |s'.removed| && s'.removed[i] == Removal(id, SessionClosed, Closer(t))
  {
    EnumerationFacts(order, s.pending.Keys);
    var k :| 0 <= k < |order| && order[k] == id;
    var s' := DoClose(s, t, Drain(order));
    assert s'.removed[|s.removed| + k] == Removal(id, SessionClosed, Closer(t));
  }

  // ---------------------------------------------------- the gap is reached

  /** A started session whose hook, run by thread 0, has drained an empty map. */
  lemma HookHasDrained(defaultTimeout: int) returns (acts: seq<Action>)
    ensures Runs(Init(defaultTimeout), acts)
    ensures var s := End(Init(defaultTimeout), acts);
      && s.next == 1 && !s.closed && s.lock.Free? && s.timer == Woken(None) && s.removed == []
      && s.closers == map[0 := HookDrained] && s.pending == map[] && StartPast(s)
  {
    var s0 := Init(defaultTimeout);
    var s1 := DoStart(s0, Claim);
    var s2 := DoStart(s1, Clear);
    var s3 := DoStart(s2, Spawn);
    RunOne(s0, Start(Claim));
    RunOne(s1, Start(Clear));
    RunOne(s2, Start(Spawn));
    RunThen(s0, [Start(Claim)], [Start(Clear)]);
    var start := [Start(Claim)] + [Start(Clear)];
    RunThen(s0, start, [Start(Spawn)]);
    var hook := Close(0, HookDrain([]));
    RunOne(s3, hook);
    RunThen(s0, start + [Start(Spawn)], [hook]);
    acts := start + [Start(Spawn)] + [hook];
  }

  /** The hook finishes over a parked request, and the timeout thread leaves. */
  lemma HookFinishes(s: Session, id: RequestId) returns (acts: seq<Action>)
    requires 0 in s.closers && s.closers[0].HookDrained? && s.removed == []
    requires s.lock.Free? && s.timer.Woken? && id in s.pending
    ensures Runs(s, acts)
    ensures var s' := End(s, acts); LeftBehind(s', id) && OutlivesHook(s', 0)
  {
    var s1 := DoClose(s, 0, HookStore);
    var s2 := DoTime(s1, Acquire);
    var s3 := DoTime(s2, Decide);
    RunOne(s, Close(0, HookStore));
    RunOne(s1, Timeout(Acquire));
    RunOne(s2, Timeout(Decide));
    RunThen(s, [Close(0, HookStore)], [Timeout(Acquire)]);
    RunThen(s, [Close(0, HookStore)] + [Timeout(Acquire)], [Timeout(Decide)]);
    acts := [Close(0, HookStore)] + [Timeout(Acquire)] + [Timeout(Decide)];
  }

  /** Such a session exists: a request left behind by a hook that has finished. */
  lemma GapIsReached(defaultTimeout: int) returns (acts: seq<Action>)
    ensures Runs(Init(defaultTimeout), acts)
    ensures var s := End(Init(defaultTimeout), acts); LeftBehind(s, IntId(1)) && OutlivesHook(s, 0)
  {
    var s0 := Init(defaultTimeout);
    var before := HookHasDrained(defaultTimeout);
    var s1 := End(s0, before);
    InvInit(defaultTimeout);
    InvRun(s0, before);
    ParkSteps(s1);
    var s2 := End(s1, ParkActs(s1));
    RunThen(s0, before, ParkActs(s1));
    var after := HookFinishes(s2, IntId(1));
    RunThen(s0, before + ParkActs(s1), after);
    acts := before + ParkActs(s1) + after;
  }
}
