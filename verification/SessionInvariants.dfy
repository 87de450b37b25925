// What every run of one Session keeps, whatever its peer sends.
module SessionInvariants {
  import opened Json
  import opened JsonRpc
  import opened SessionMachine

  // ------------------------------------------------ settlement accounting

  /** Allocated, but not yet offered to the map. */
  predicate Entering(s: Session, id: RequestId) {
    id in s.calls && (s.calls[id].Allocated? || s.calls[id].Deciding?)
  }

  ghost predicate Removed(s: Session, id: RequestId) {
    exists i :: 0 <= i < |s.removed| && s.removed[i].id == id
  }

  ghost predicate OncePerId(h: seq<Removal>) {
    forall i, j :: 0 <= i < j < |h| ==> h[i].id != h[j].id
  }

  /** Entering, parked and removed exclude one another, and no id is removed twice. */
  ghost predicate Exclusive(s: Session) {
    && OncePerId(s.removed)
    && (forall i :: 0 <= i < |s.removed| ==> s.removed[i].id !in s.pending && !Entering(s, s.removed[i].id))
    && (forall id :: id in s.pending ==> !Entering(s, id))
  }

  /** Nothing issued disappears. */
  ghost predicate Covered(s: Session) {
    forall id :: id in s.requests ==> Entering(s, id) || id in s.pending || Removed(s, id)
  }

  /** Only issued ids are anywhere, and the next id is unused. */
  ghost predicate IdsIssued(s: Session) {
    && 1 <= s.next
    && (forall id :: id in s.requests ==> id.IntId? && 1 <= id.n < s.next)
    && s.calls.Keys <= s.requests.Keys
    && s.pending.Keys <= s.requests.Keys
    && (forall i :: 0 <= i < |s.removed| ==> s.removed[i].id in s.requests)
    && (forall i :: i in s.settled ==> i < |s.removed|)
  }

  ghost predicate Accounted(s: Session) {
    Exclusive(s) && Covered(s) && IdsIssued(s)
  }

  lemma EnumerationFacts(order: seq<RequestId>, keys: set<RequestId>)
    requires Enumerates(order, keys)
    ensures forall i :: 0 <= i < |order| ==> order[i] in keys
    ensures forall i, j :: 0 <= i < j < |order| ==> order[i] != order[j]
    ensures forall id :: id in keys ==> id in order
  {
    forall i | 0 <= i < |order| ensures order[i] in keys {
      assert order[i] in multiset(order);
    }
    forall i, j | 0 <= i < j < |order| ensures order[i] != order[j] {
      assert order == order[..j] + order[j..];
      assert order[i] in order[..j] && order[j] in order[j..];
      assert multiset(order)[order[j]] <= 1;
    }
    forall id | id in keys ensures id in order {
      assert id in multiset(order);
    }
  }

  /** Steps that leave the accounting fields alone. */
  ghost predicate Untouched(s: Session, s': Session) {
    && s'.calls == s.calls && s'.pending == s.pending && s'.requests == s.requests
    && s'.removed == s.removed && s'.next == s.next && s'.settled == s.settled
  }

  lemma AccountUntouched(s: Session, s': Session)
    requires Accounted(s) && Untouched(s, s')
    ensures Accounted(s')
  {
    assert forall id :: Entering(s', id) == Entering(s, id);
    assert forall id :: Removed(s', id) == Removed(s, id);
  }

  lemma RemovedGrows(s: Session, s': Session, id: RequestId)
    requires s.removed <= s'.removed && Removed(s, id)
    ensures Removed(s', id)
  {
    var i :| 0 <= i < |s.removed| && s.removed[i].id == id;
    assert s'.removed[i] == s.removed[i];
  }

  lemma AccountIssue(s: Session, name: string, params: Value, timeout: int)
    requires Accounted(s)
    ensures Accounted(DoIssue(s, name, params, timeout))
  {
    var s' := DoIssue(s, name, params, timeout);
    assert s'.removed == s.removed;
  }

  /** A caller goes on, entering still or not entering still. */
  lemma AccountHold(s: Session, s': Session)
    requires Accounted(s) && s'.calls.Keys <= s.calls.Keys
    requires forall x :: Entering(s', x) == Entering(s, x)
    requires s'.pending == s.pending && s'.removed == s.removed
    requires s'.requests == s.requests && s'.next == s.next && s'.settled == s.settled
    ensures Accounted(s')
  {
    assert forall x :: Removed(s', x) == Removed(s, x);
  }

  /** One id goes from entering to parked. */
  lemma AccountPark(s: Session, s': Session, id: RequestId, p: Pending)
    requires Accounted(s) && Entering(s, id) && s'.calls.Keys <= s.calls.Keys
    requires forall x :: Entering(s', x) <==> Entering(s, x) && x != id
    requires s'.pending == s.pending[id := p] && s'.removed == s.removed
    requires s'.requests == s.requests && s'.next == s.next && s'.settled == s.settled
    ensures Accounted(s')
  {
    assert forall x :: Removed(s', x) == Removed(s, x);
  }

  lemma RemovedMore(s: Session, s': Session, r: Removal)
    requires s'.removed == s.removed + [r]
    ensures forall x :: Removed(s', x) <==> Removed(s, x) || x == r.id
  {
    assert s'.removed[|s.removed|] == r;
    forall x ensures Removed(s', x) <==> Removed(s, x) || x == r.id {
      if Removed(s, x) {
        RemovedGrows(s, s', x);
      }
    }
  }

  lemma OnceMore(s: Session, r: Removal)
    requires OncePerId(s.removed) && !Removed(s, r.id)
    ensures OncePerId(s.removed + [r])
  {
  }

  /** One id enters the removals from where it was entering or parked. */
  lemma AccountRemoval(s: Session, s': Session, r: Removal)
    requires Accounted(s) && (Entering(s, r.id) || r.id in s.pending)
    requires s'.removed == s.removed + [r] && s'.pending == s.pending - {r.id}
    requires s'.calls == s.calls || s'.calls == s.calls - {r.id}
    requires r.id in s'.calls ==> !Entering(s', r.id)
    requires s'.requests == s.requests && s'.next == s.next && s'.settled == s.settled
    ensures Accounted(s')
  {
    assert !Removed(s, r.id);
    OnceMore(s, r);
    RemovedMore(s, s', r);
    assert forall x :: x != r.id ==> Entering(s', x) == Entering(s, x);
    ExclusiveMore(s, s', r);
    assert Covered(s');
  }

  lemma ExclusiveMore(s: Session, s': Session, r: Removal)
    requires Exclusive(s) && OncePerId(s'.removed) && !Entering(s', r.id)
    requires s'.removed == s.removed + [r] && s'.pending == s.pending - {r.id}
    requires forall x :: x != r.id ==> Entering(s', x) == Entering(s, x)
    ensures Exclusive(s')
  {
    forall i | 0 <= i < |s'.removed|
      ensures s'.removed[i].id !in s'.pending && !Entering(s', s'.removed[i].id)
    {
      assert i < |s.removed| ==> s'.removed[i] == s.removed[i];
    }
  }

  lemma AccountUnlock(s: Session, id: RequestId)
    requires Accounted(s) && CanCall(s, id, Unlock)
    ensures Accounted(Park(s, id))
  {
    var s' := Park(s, id);
    if id in s'.pending {
      AccountPark(s, s', id, s'.pending[id]);
    } else {
      assert s.pending - {id} == s'.pending;
      AccountRemoval(s, s', s'.removed[|s.removed|]);
    }
  }

  lemma AccountReclaim(s: Session, id: RequestId)
    requires Accounted(s) && CanCall(s, id, Reclaim)
    ensures Accounted(TakeBack(s, id))
  {
    if id in s.pending {
      AccountRemoval(s, TakeBack(s, id), Removal(id, SendFailed, Caller));
    } else {
      assert s.pending - {id} == s.pending;
      AccountHold(s, TakeBack(s, id));
    }
  }

  lemma AccountCall(s: Session, id: RequestId, step: CallStep)
    requires Accounted(s) && CanCall(s, id, step)
    ensures Accounted(DoCall(s, id, step))
  {
    match step
    case Lock => AccountHold(s, DoCall(s, id, step));
    case Unlock => AccountUnlock(s, id);
    case SendOk => AccountHold(s, DoCall(s, id, step));
    case SendFail => AccountHold(s, DoCall(s, id, step));
    case Reclaim => AccountReclaim(s, id);
  }

  lemma AccountReceive(s: Session, frame: Inbound)
    requires Accounted(s)
    ensures Accounted(DoReceive(s, frame))
  {
    var s' := DoReceive(s, frame);
    if Matches(s, frame) {
      AccountRemoval(s, s', s'.removed[|s.removed|]);
    } else {
      AccountUntouched(s, s');
    }
  }

  /** The bulk removals: an expiry takes the due part of the map, a cancel all of it. */
  lemma AccountBulk(s: Session, s': Session, order: seq<RequestId>, keys: set<RequestId>, v: Verdict, o: Owner)
    requires Accounted(s) && Enumerates(order, keys) && keys <= s.pending.Keys
    requires s'.pending == s.pending - keys && s'.removed == s.removed + Removals(order, v, o)
    requires s'.calls == s.calls && s'.requests == s.requests && s'.next == s.next && s'.settled == s.settled
    ensures Accounted(s')
  {
    EnumerationFacts(order, keys);
    forall i | 0 <= i < |s'.removed|
      ensures i < |s.removed| ==> s'.removed[i] == s.removed[i]
      ensures |s.removed| <= i ==> s'.removed[i].id == order[i - |s.removed|]
    {
    }
    forall id | id in s'.requests ensures Entering(s', id) || id in s'.pending || Removed(s', id) {
      if id in keys {
        var k :| 0 <= k < |order| && order[k] == id;
        assert s'.removed[|s.removed| + k].id == id;
      } else if Removed(s, id) {
        RemovedGrows(s, s', id);
      }
    }
  }

  lemma AccountTime(s: Session, step: TimerStep)
    requires Accounted(s) && CanTime(s, step)
    ensures Accounted(DoTime(s, step))
  {
    if step.Expire? {
      AccountBulk(s, ExpireDue(s, step.order), step.order, Due(s.pending, s.now), TimedOut, Timer);
    } else {
      AccountUntouched(s, DoTime(s, step));
    }
  }

  lemma AccountClose(s: Session, t: nat, step: CloseStep)
    requires Accounted(s) && CanClose(s, t, step)
    ensures Accounted(DoClose(s, t, step))
  {
    var s' := DoClose(s, t, step);
    match step
    case HookDrain(order) =>
      assert s.pending - s.pending.Keys == map[];
      AccountBulk(s, s', order, s.pending.Keys, TransportClosed, Closer(t));
    case Drain(order) =>
      assert s.pending - s.pending.Keys == map[];
      AccountBulk(s, s', order, s.pending.Keys, SessionClosed, Closer(t));
    case _ =>
      AccountUntouched(s, s');
  }

  lemma AccountSettle(s: Session, i: nat)
    requires Accounted(s) && i < |s.removed|
    ensures Accounted(DoSettle(s, i))
  {
    assert forall id :: Entering(DoSettle(s, i), id) == Entering(s, id);
    assert forall id :: Removed(DoSettle(s, i), id) == Removed(s, id);
  }

  lemma AccountTick(s: Session, to: int)
    requires Accounted(s)
    ensures Accounted(DoTick(s, to))
  {
    AccountUntouched(s, DoTick(s, to));
  }

  lemma AccountNotify(s: Session, name: string, params: Value)
    requires Accounted(s)
    ensures Accounted(DoNotify(s, name, params))
  {
    AccountUntouched(s, DoNotify(s, name, params));
  }

  lemma AccountStart(s: Session, step: StartStep)
    requires Accounted(s) && CanStart(s, step)
    ensures Accounted(DoStart(s, step))
  {
    AccountUntouched(s, DoStart(s, step));
  }

  lemma AccountWork(s: Session, k: nat, step: WorkStep)
    requires Accounted(s) && CanWork(s, k, step)
    ensures Accounted(DoWork(s, k, step))
  {
    AccountUntouched(s, DoWork(s, k, step));
  }

  lemma AccountStep(s: Session, a: Action)
    requires Accounted(s) && Enabled(s, a)
    ensures Accounted(Do(s, a))
  {
    var s' := Do(s, a);
    match a
    case Issue(name, params, timeout) => AccountIssue(s, name, params, timeout);
    case Call(id, step) => AccountCall(s, id, step);
    case Receive(frame) => AccountReceive(s, frame);
    case Timeout(step) => AccountTime(s, step);
    case Close(t, step) => AccountClose(s, t, step);
    case Settle(i) => AccountSettle(s, i);
    case Tick(to) => AccountTick(s, to);
    case Notify(name, params) => AccountNotify(s, name, params);
    case Start(step) => AccountStart(s, step);
    case Work(k, step) => AccountWork(s, k, step);
  }

  // ------------------------------------------------ locks, waits, deadlines

  ghost predicate LockAgrees(s: Session) {
    && (s.lock.ByCaller? ==> s.lock.id in s.calls && s.calls[s.lock.id].Deciding?)
    && (forall id :: id in s.calls && s.calls[id].Deciding? ==> s.lock == ByCaller(id))
    && (s.lock.ByTimer? <==> s.timer.LoopHead?)
    && (s.startPc.Running? <==> !s.timer.NotSpawned?)
  }

  ghost predicate DeadlinesAgree(s: Session) {
    forall id :: id in s.pending ==> id in s.requests && s.pending[id].deadline == s.requests[id].deadline
  }

  /** A timeout is only raised at or after the deadline, and the duplicate-id
      branch is never taken. */
  ghost predicate VerdictsSound(s: Session) {
    forall i :: 0 <= i < |s.removed| ==>
      && s.removed[i].id in s.requests
      && !s.removed[i].verdict.DuplicateId?
      && (s.removed[i].verdict.TimedOut? ==> s.requests[s.removed[i].id].deadline <= s.now)
  }

  /** While the timeout thread waits it will be up by the earliest deadline. */
  ghost predicate NeverOversleeps(s: Session) {
    s.timer.Waiting? ==>
      if s.timer.wake.None? then s.pending == map[]
      else forall id :: id in s.pending ==> s.timer.wake.value <= s.pending[id].deadline
  }

  // ------------------------------------------------------------- closing

  ghost predicate PastMark(pc: CloserPc) {
    pc.Marked? || PastDrain(pc)
  }

  ghost predicate PastDrain(pc: CloserPc) {
    pc.Drained? || pc.Quiet? || PastFinal(pc)
  }

  ghost predicate PastFinal(pc: CloserPc) {
    pc.Notified? || pc.Joined?
  }

  /** What a close() that start() came before has achieved once it got this far. */
  ghost predicate CloseHolds(s: Session, pc: CloserPc) {
    && (PastMark(pc) ==> s.closed && (s.startPc.Cleared? || s.startPc.Running?))
    && (PastDrain(pc) ==> Sealed(s))
    && (PastFinal(pc) ==> !s.timer.Waiting? && s.timer != LoopHead(false))
  }

  /** Nothing is parked, and no caller is about to park anything. */
  ghost predicate Sealed(s: Session) {
    && s.closed
    && s.pending == map[]
    && (s.lock.ByCaller? ==> s.lock.id in s.calls && s.calls[s.lock.id] == Deciding(true))
  }

  ghost predicate Closing(s: Session) {
    && s.early <= s.closers.Keys
    && forall t :: t in s.closers && t !in s.early ==> CloseHolds(s, s.closers[t])
  }

  ghost predicate Orderly(s: Session) {
    LockAgrees(s) && DeadlinesAgree(s) && VerdictsSound(s) && NeverOversleeps(s) && Closing(s)
  }

  lemma OrderlyTick(s: Session, to: int)
    requires Orderly(s) && s.now <= to
    ensures Orderly(DoTick(s, to))
  {
  }

  lemma OrderlyNotify(s: Session, name: string, params: Value)
    requires Orderly(s)
    ensures Orderly(DoNotify(s, name, params))
  {
  }

  lemma OrderlyStart(s: Session, step: StartStep)
    requires Orderly(s) && CanStart(s, step)
    ensures Orderly(DoStart(s, step))
  {
  }

  lemma OrderlyIssue(s: Session, name: string, params: Value, timeout: int)
    requires Accounted(s) && Orderly(s)
    ensures Orderly(DoIssue(s, name, params, timeout))
  {
  }

  lemma CallTimely(s: Session, id: RequestId, step: CallStep)
    requires Accounted(s) && LockAgrees(s) && DeadlinesAgree(s) && NeverOversleeps(s) && CanCall(s, id, step)
    ensures var s' := DoCall(s, id, step); LockAgrees(s') && DeadlinesAgree(s') && NeverOversleeps(s')
  {
  }

  lemma CallVerdicts(s: Session, id: RequestId, step: CallStep)
    requires Accounted(s) && LockAgrees(s) && VerdictsSound(s) && CanCall(s, id, step)
    ensures VerdictsSound(DoCall(s, id, step))
  {
  }

  lemma CallClosing(s: Session, id: RequestId, step: CallStep)
    requires LockAgrees(s) && Closing(s) && CanCall(s, id, step)
    ensures Closing(DoCall(s, id, step))
  {
  }

  lemma OrderlyCall(s: Session, id: RequestId, step: CallStep)
    requires Accounted(s) && Orderly(s) && CanCall(s, id, step)
    ensures Orderly(DoCall(s, id, step))
  {
    CallTimely(s, id, step);
    CallVerdicts(s, id, step);
    CallClosing(s, id, step);
  }

  lemma OrderlyReceive(s: Session, frame: Inbound)
    requires Accounted(s) && Orderly(s) && CanReceive(s, frame)
    ensures Orderly(DoReceive(s, frame))
  {
  }

  lemma OrderlyWork(s: Session, k: nat, step: WorkStep)
    requires Orderly(s) && CanWork(s, k, step)
    ensures Orderly(DoWork(s, k, step))
  {
  }

  lemma OrderlyTime(s: Session, step: TimerStep)
    requires Accounted(s) && Orderly(s) && CanTime(s, step)
    ensures Orderly(DoTime(s, step))
  {
    if step.Expire? {
      EnumerationFacts(step.order, Due(s.pending, s.now));
    }
  }

  lemma CloseTimely(s: Session, t: nat, step: CloseStep)
    requires LockAgrees(s) && DeadlinesAgree(s) && NeverOversleeps(s) && CanClose(s, t, step)
    ensures var s' := DoClose(s, t, step); LockAgrees(s') && DeadlinesAgree(s') && NeverOversleeps(s')
  {
  }

  lemma CloseVerdicts(s: Session, t: nat, step: CloseStep)
    requires Accounted(s) && VerdictsSound(s) && CanClose(s, t, step)
    ensures VerdictsSound(DoClose(s, t, step))
  {
    match step
    case HookDrain(order) => EnumerationFacts(order, s.pending.Keys);
    case Drain(order) => EnumerationFacts(order, s.pending.Keys);
    case _ =>
  }

  lemma CloseClosing(s: Session, t: nat, step: CloseStep)
    requires LockAgrees(s) && Closing(s) && CanClose(s, t, step)
    ensures Closing(DoClose(s, t, step))
  {
  }

  lemma OrderlyClose(s: Session, t: nat, step: CloseStep)
    requires Accounted(s) && Orderly(s) && CanClose(s, t, step)
    ensures Orderly(DoClose(s, t, step))
  {
    CloseTimely(s, t, step);
    CloseVerdicts(s, t, step);
    CloseClosing(s, t, step);
  }

  ghost predicate Inv(s: Session) {
    Accounted(s) && Orderly(s)
  }

  lemma InvInit(defaultTimeout: int)
    ensures Inv(Init(defaultTimeout))
  {
  }

  lemma InvStep(s: Session, a: Action)
    requires Inv(s) && Enabled(s, a)
    ensures Inv(Do(s, a))
  {
    AccountStep(s, a);
    match a
    case Tick(to) => OrderlyTick(s, to);
    case Start(step) => OrderlyStart(s, step);
    case Issue(name, params, timeout) => OrderlyIssue(s, name, params, timeout);
    case Call(id, step) => OrderlyCall(s, id, step);
    case Notify(name, params) => OrderlyNotify(s, name, params);
    case Receive(frame) => OrderlyReceive(s, frame);
    case Work(k, step) => OrderlyWork(s, k, step);
    case Timeout(step) => OrderlyTime(s, step);
    case Close(t, step) => OrderlyClose(s, t, step);
    case Settle(i) =>
  }
}
