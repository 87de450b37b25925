// Properties of whole runs of one Session.
module SessionTheorems {
  import opened Json
  import opened JsonRpc
  import opened SessionMachine
  import opened SessionInvariants

  lemma {:induction false} InvRun(s: Session, acts: seq<Action>)
    requires Inv(s) && Runs(s, acts)
    ensures Inv(End(s, acts))
    decreases |acts|
  {
    if acts != [] {
      InvStep(s, acts[0]);
      InvRun(Do(s, acts[0]), acts[1..]);
    }
  }

  // ----------------------------------------------------------- settlement

  ghost predicate Parked(s: Session, id: RequestId) {
    id in s.pending
  }

  ghost predicate HeldByOne(s: Session, id: RequestId) {
    exists i :: 0 <= i < |s.removed| && s.removed[i].id == id && i !in s.settled
  }

  ghost predicate SettledOnce(s: Session, id: RequestId) {
    exists i :: 0 <= i < |s.removed| && s.removed[i].id == id && i in s.settled
  }

  /** An issued id is in exactly one place; in the hands of a remover it is in
      the hands of just one. */
  ghost predicate OnePlace(s: Session, id: RequestId) {
    && (id in s.requests <==> Entering(s, id) || Parked(s, id) || HeldByOne(s, id) || SettledOnce(s, id))
    && !(Entering(s, id) && Parked(s, id))
    && !(Entering(s, id) && (HeldByOne(s, id) || SettledOnce(s, id)))
    && !(Parked(s, id) && (HeldByOne(s, id) || SettledOnce(s, id)))
    && !(HeldByOne(s, id) && SettledOnce(s, id))
    && (forall i, j :: 0 <= i < j < |s.removed| ==> !(s.removed[i].id == id && s.removed[j].id == id))
  }

  lemma InOnePlace(s: Session, id: RequestId)
    requires Accounted(s)
    ensures OnePlace(s, id)
  {
    assert Removed(s, id) <==> HeldByOne(s, id) || SettledOnce(s, id);
  }

  /** In every interleaving no promise is settled twice and none disappears. */
  lemma ExactlyOnePlace(defaultTimeout: int, acts: seq<Action>, id: RequestId)
    requires Runs(Init(defaultTimeout), acts)
    ensures OnePlace(End(Init(defaultTimeout), acts), id)
  {
    InvInit(defaultTimeout);
    InvRun(Init(defaultTimeout), acts);
    InOnePlace(End(Init(defaultTimeout), acts), id);
  }

  /** Verdicts and settlements are permanent. */
  ghost predicate Extends(s: Session, s': Session) {
    && s.removed <= s'.removed
    && s.settled <= s'.settled
    && s.requests.Keys <= s'.requests.Keys
    && forall id :: id in s.requests ==> s'.requests[id] == s.requests[id]
  }

  ghost predicate StartPast(s: Session) {
    s.startPc.Cleared? || s.startPc.Running?
  }

  /** Closed for good: nothing is parked or about to be, and closed_ will not be
      cleared again. */
  ghost predicate Shut(s: Session) {
    Sealed(s) && StartPast(s)
  }

  /** The timeout thread is not waiting and will not wait again. */
  ghost predicate TimerFree(s: Session) {
    Shut(s) && !s.timer.Waiting? && s.timer != LoopHead(false)
  }

  /** What a step of any thread other than an id's own caller keeps. */
  ghost predicate CallersKept(s: Session, s': Session) {
    && (forall x :: Entering(s, x) ==> Entering(s', x))
    && (forall x :: x in s'.requests && x !in s.requests ==> Entering(s', x))
  }

  ghost predicate Follows(s: Session, s': Session) {
    && Extends(s, s')
    && (Shut(s) ==> Shut(s'))
    && (TimerFree(s) ==> TimerFree(s'))
  }

  lemma FollowsCall(s: Session, id: RequestId, step: CallStep)
    requires Inv(s) && CanCall(s, id, step)
    ensures Follows(s, DoCall(s, id, step))
  {
  }

  lemma FollowsTime(s: Session, step: TimerStep)
    requires Inv(s) && CanTime(s, step)
    ensures Follows(s, DoTime(s, step))
    ensures CallersKept(s, DoTime(s, step))
  {
  }

  lemma FollowsClose(s: Session, t: nat, step: CloseStep)
    requires Inv(s) && CanClose(s, t, step)
    ensures Follows(s, DoClose(s, t, step))
    ensures CallersKept(s, DoClose(s, t, step))
  {
  }

  lemma FollowsWork(s: Session, k: nat, step: WorkStep)
    requires Inv(s) && CanWork(s, k, step)
    ensures Follows(s, DoWork(s, k, step))
    ensures CallersKept(s, DoWork(s, k, step))
  {
  }

  lemma FollowsReceive(s: Session, frame: Inbound)
    requires Inv(s)
    ensures Follows(s, DoReceive(s, frame))
    ensures CallersKept(s, DoReceive(s, frame))
  {
  }

  lemma FollowsStart(s: Session, step: StartStep)
    requires Inv(s) && CanStart(s, step)
    ensures Follows(s, DoStart(s, step))
    ensures CallersKept(s, DoStart(s, step))
  {
  }

  lemma FollowsIssue(s: Session, name: string, params: Value, timeout: int)
    requires Inv(s)
    ensures Follows(s, DoIssue(s, name, params, timeout))
    ensures CallersKept(s, DoIssue(s, name, params, timeout))
  {
  }

  lemma FollowsStep(s: Session, a: Action)
    requires Inv(s) && Enabled(s, a)
    ensures Follows(s, Do(s, a))
    ensures !a.Call? ==> CallersKept(s, Do(s, a))
  {
    match a
    case Call(id, step) => FollowsCall(s, id, step);
    case Timeout(step) => FollowsTime(s, step);
    case Close(t, step) => FollowsClose(s, t, step);
    case Work(k, step) => FollowsWork(s, k, step);
    case Receive(frame) => FollowsReceive(s, frame);
    case Start(step) => FollowsStart(s, step);
    case Issue(name, params, timeout) => FollowsIssue(s, name, params, timeout);
    case _ =>
  }

  lemma {:induction false} ExtendsRun(s: Session, acts: seq<Action>)
    requires Inv(s) && Runs(s, acts)
    ensures Extends(s, End(s, acts))
    decreases |acts|
  {
    if acts != [] {
      FollowsStep(s, acts[0]);
      InvStep(s, acts[0]);
      ExtendsRun(Do(s, acts[0]), acts[1..]);
    }
  }

  // -------------------------------------------------------------- closing

  /** Every request issued since s0 is refused or still on its way to be. */
  ghost predicate LateRefused(s0: Session, s: Session) {
    forall id :: id in s.requests && id !in s0.requests ==>
      Entering(s, id) || RefusedByCaller(s, id)
  }

  ghost predicate RefusedByCaller(s: Session, id: RequestId) {
    exists i :: 0 <= i < |s.removed| && s.removed[i] == Removal(id, SessionClosed, Caller)
  }

  lemma StaysRefused(s: Session, s': Session, id: RequestId)
    requires s.removed <= s'.removed && RefusedByCaller(s, id)
    ensures RefusedByCaller(s', id)
  {
    var i :| 0 <= i < |s.removed| && s.removed[i] == Removal(id, SessionClosed, Caller);
    assert s'.removed[i] == s.removed[i];
  }

  lemma LateCall(s0: Session, s: Session, id: RequestId, step: CallStep)
    requires Inv(s) && Shut(s) && LateRefused(s0, s) && CanCall(s, id, step)
    ensures LateRefused(s0, DoCall(s, id, step))
  {
    var s' := DoCall(s, id, step);
    forall x | x in s'.requests && x !in s0.requests
      ensures Entering(s', x) || RefusedByCaller(s', x)
    {
      if x == id && step.Unlock? {
        assert s'.removed[|s.removed|] == Removal(x, SessionClosed, Caller);
      } else if !Entering(s, x) {
        FollowsCall(s, id, step);
        StaysRefused(s, s', x);
      }
    }
  }

  lemma LateStep(s0: Session, s: Session, a: Action)
    requires Inv(s) && Shut(s) && LateRefused(s0, s) && Enabled(s, a)
    ensures LateRefused(s0, Do(s, a))
  {
    var s' := Do(s, a);
    if a.Call? {
      LateCall(s0, s, a.id, a.call);
    } else {
      FollowsStep(s, a);
      forall x | x in s'.requests && x !in s0.requests
        ensures Entering(s', x) || RefusedByCaller(s', x)
      {
        if x in s.requests && !Entering(s, x) {
          StaysRefused(s, s', x);
        }
      }
    }
  }

  lemma {:induction false} ShutRun(s: Session, acts: seq<Action>)
    requires Inv(s) && Shut(s) && Runs(s, acts)
    ensures Shut(End(s, acts)) && LateRefused(s, End(s, acts))
    ensures TimerFree(s) ==> TimerFree(End(s, acts))
  {
    assert LateRefused(s, s);
    ShutRunFrom(s, s, acts);
  }

  lemma {:induction false} ShutRunFrom(s0: Session, s: Session, acts: seq<Action>)
    requires Inv(s) && Shut(s) && LateRefused(s0, s) && Runs(s, acts)
    ensures Shut(End(s, acts)) && LateRefused(s0, End(s, acts))
    ensures TimerFree(s) ==> TimerFree(End(s, acts))
    decreases |acts|
  {
    if acts != [] {
      InvStep(s, acts[0]);
      FollowsStep(s, acts[0]);
      LateStep(s0, s, acts[0]);
      ShutRunFrom(s0, Do(s, acts[0]), acts[1..]);
    }
  }
}
