// Two Sessions joined by one reliable FIFO per direction. A wire is the log of
// what its sender handed to the transport; the receiver has read its first
// `received` frames. Frames travel as JSON and are parsed on arrival.
module TwoSessions {
  import opened Wrappers
  import opened Json
  import opened JsonRpc
  import opened SessionMachine
  import opened SessionInvariants
  import opened SessionTheorems

  datatype Net = Net(a: Session, b: Session)

  datatype NetAction = AtA(act: Action) | AtB(act: Action) | ToA | ToB

  function ReadFrame(j: Value): Inbound {
    match Parse(j)
    case Ok(m) => Frame(m)
    case Err(_) => Malformed
  }

  /** The next frame on the wire from `from` that `to` has not read. */
  function NextFrame(from: Session, to: Session): Inbound
    requires to.received < |from.sent|
  {
    ReadFrame(Serialize(from.sent[to.received]))
  }

  predicate NetEnabled(n: Net, x: NetAction) {
    match x
    case AtA(act) => !act.Receive? && Enabled(n.a, act)
    case AtB(act) => !act.Receive? && Enabled(n.b, act)
    case ToA => n.a.received < |n.b.sent| && CanReceive(n.a, NextFrame(n.b, n.a))
    case ToB => n.b.received < |n.a.sent| && CanReceive(n.b, NextFrame(n.a, n.b))
  }

  ghost function NetDo(n: Net, x: NetAction): Net
    requires NetEnabled(n, x)
  {
    match x
    case AtA(act) => n.(a := Do(n.a, act))
    case AtB(act) => n.(b := Do(n.b, act))
    case ToA => n.(a := DoReceive(n.a, NextFrame(n.b, n.a)))
    case ToB => n.(b := DoReceive(n.b, NextFrame(n.a, n.b)))
  }

  ghost predicate NetRuns(n: Net, xs: seq<NetAction>)
    decreases |xs|
  {
    xs == [] || (NetEnabled(n, xs[0]) && NetRuns(NetDo(n, xs[0]), xs[1..]))
  }

  ghost function NetEnd(n: Net, xs: seq<NetAction>): Net
    requires NetRuns(n, xs)
    decreases |xs|
  {
    if xs == [] then n else NetEnd(NetDo(n, xs[0]), xs[1..])
  }

  // ----------------------------------------------------- clean messages

  ghost predicate CleanMessage(m: Message) {
    Typed(m) && !ExplicitNullParams(m)
  }

  ghost predicate CleanWorker(w: Worker) {
    match w
    case Handling(req) => CleanMessage(req)
    case Replying(id, outcome) => CleanMessage(Response(Some(id), outcome))
    case Leaving => true
  }

  /** Everything a session sends survives the codec. */
  ghost predicate Clean(s: Session) {
    && (forall id :: id in s.requests ==> TypedId(id))
    && (forall k :: 0 <= k < |s.sent| ==> CleanMessage(s.sent[k]))
    && (forall k :: k in s.workers ==> CleanWorker(s.workers[k]))
    && s.calls.Keys <= s.requests.Keys
  }

  // ------------------------------------------------------ correlation

  /** The frames of the requests a has sent are its own calls, one frame each. */
  ghost predicate RequestsSent(a: Session) {
    && (forall k :: 0 <= k < |a.sent| && a.sent[k].Request? ==>
         && a.sent[k].id in a.requests && a.sent[k].id !in a.calls
         && a.sent[k] == RequestFrame(a.sent[k].id, a.requests[a.sent[k].id]))
    && (forall k, l :: 0 <= k < l < |a.sent| && a.sent[k].Request? && a.sent[l].Request? ==>
         a.sent[k].id != a.sent[l].id)
  }

  /** Worker k of b is at work on frame k of a's wire. */
  ghost predicate WorkerServes(a: Session, b: Session, k: nat)
    requires k in b.workers
  {
    && k < b.received && k < |a.sent|
    && (b.workers[k].Handling? ==> k !in b.handled && a.sent[k].Request? && b.workers[k].req == a.sent[k])
    && (b.workers[k].Replying? ==> k in b.handled && IsReply(b.handled[k], b.workers[k].id, b.workers[k].outcome))
  }

  ghost predicate WorkersServe(a: Session, b: Session) {
    && b.received <= |a.sent|
    && (forall k :: k in b.handled ==> k < b.received && a.sent[k].Request? && b.handled[k].req == a.sent[k])
    && (forall k :: k in b.workers ==> WorkerServes(a, b, k))
  }

  ghost predicate IsReply(h: Handled, id: RequestId, o: Outcome) {
    h.req.Request? && id == h.req.id && o == OutcomeOf(h.exit, h.req.name)
  }

  ghost predicate HandledWith(b: Session, id: RequestId, o: Outcome) {
    exists k :: k in b.handled && IsReply(b.handled[k], id, o)
  }

  /** Every response b sent reports how one of its handlers ended. */
  ghost predicate RepliesHonest(b: Session) {
    forall k :: 0 <= k < |b.sent| && b.sent[k].Response? ==>
      b.sent[k].target.Some? && HandledWith(b, b.sent[k].target.value, b.sent[k].outcome)
  }

  ghost predicate FromPeer(v: Verdict) {
    v.Resolved? || v.PeerError?
  }

  function OutcomeIn(v: Verdict): Outcome
    requires FromPeer(v)
  {
    if v.Resolved? then Success(v.result) else Failure(v.error)
  }

  /** Every verdict a took from its peer is how a handler of b ended. */
  ghost predicate VerdictsHonest(a: Session, b: Session) {
    forall i :: 0 <= i < |a.removed| && FromPeer(a.removed[i].verdict) ==>
      HandledWith(b, a.removed[i].id, OutcomeIn(a.removed[i].verdict))
  }

  ghost predicate Link(a: Session, b: Session) {
    RequestsSent(a) && WorkersServe(a, b) && RepliesHonest(b) && VerdictsHonest(a, b)
  }

  ghost predicate NetInv(n: Net) {
    Clean(n.a) && Clean(n.b) && Link(n.a, n.b) && Link(n.b, n.a)
  }

  // ------------------------------------------------------- quiet steps

  /** A step that sends nothing and takes nothing from the peer. */
  ghost predicate QuietStep(s: Session, s': Session) {
    && s'.sent == s.sent && s'.handled == s.handled && s'.received == s.received
    && (forall k :: k in s'.workers ==> k in s.workers && (s'.workers[k] == s.workers[k] || s'.workers[k].Leaving?))
    && (forall id :: id in s.requests ==> id in s'.requests && s'.requests[id] == s.requests[id])
    && (forall id :: id in s'.requests ==> TypedId(id))
    && (forall id :: id in s'.calls ==> id in s'.requests && (id in s.calls || id !in s.requests))
    && s.removed <= s'.removed
    && (forall i :: |s.removed| <= i < |s'.removed| ==> !FromPeer(s'.removed[i].verdict))
  }

  lemma QuietIssue(s: Session, name: string, params: Value, timeout: int)
    requires Inv(s) && Clean(s) && IsInt64(s.next)
    ensures QuietStep(s, DoIssue(s, name, params, timeout))
  {
  }

  lemma QuietCall(s: Session, id: RequestId, step: CallStep)
    requires Clean(s) && CanCall(s, id, step) && !step.SendOk?
    ensures QuietStep(s, DoCall(s, id, step))
  {
  }

  lemma QuietTime(s: Session, step: TimerStep)
    requires Clean(s) && CanTime(s, step)
    ensures QuietStep(s, DoTime(s, step))
  {
  }

  lemma QuietClose(s: Session, t: nat, step: CloseStep)
    requires Clean(s) && CanClose(s, t, step)
    ensures QuietStep(s, DoClose(s, t, step))
  {
  }

  lemma QuietStart(s: Session, step: StartStep)
    requires Clean(s) && CanStart(s, step)
    ensures QuietStep(s, DoStart(s, step))
  {
  }

  lemma HandledStays(b: Session, b': Session, id: RequestId, o: Outcome)
    requires HandledWith(b, id, o)
    requires forall k :: k in b.handled ==> k in b'.handled && b'.handled[k] == b.handled[k]
    ensures HandledWith(b', id, o)
  {
    var k :| k in b.handled && IsReply(b.handled[k], id, o);
    assert k in b'.handled && IsReply(b'.handled[k], id, o);
  }

  lemma QuietAsCaller(s: Session, s': Session, p: Session)
    requires QuietStep(s, s') && Link(s, p)
    ensures Link(s', p)
  {
    forall i | 0 <= i < |s'.removed| && FromPeer(s'.removed[i].verdict)
      ensures HandledWith(p, s'.removed[i].id, OutcomeIn(s'.removed[i].verdict))
    {
      assert s'.removed[i] == s.removed[i];
    }
  }

  lemma QuietAsServer(s: Session, s': Session, p: Session)
    requires QuietStep(s, s') && Link(p, s)
    ensures Link(p, s')
  {
    assert forall id, o :: HandledWith(s', id, o) == HandledWith(s, id, o);
  }

  lemma LinkQuiet(s: Session, s': Session, p: Session)
    requires Clean(s) && QuietStep(s, s') && Link(s, p) && Link(p, s)
    ensures Clean(s') && Link(s', p) && Link(p, s')
  {
    QuietAsCaller(s, s', p);
    QuietAsServer(s, s', p);
  }

  // ------------------------------------------------------ sending steps

  /** A step that adds one frame to the wire, and may end a worker. */
  ghost predicate Appends(s: Session, s': Session, m: Message) {
    && s'.sent == s.sent + [m] && CleanMessage(m)
    && s'.handled == s.handled && s'.received == s.received
    && s'.requests == s.requests && s'.removed == s.removed
    && s'.calls.Keys <= s.calls.Keys
    && s'.workers.Keys == s.workers.Keys
    && forall k :: k in s.workers ==> s'.workers[k] == s.workers[k] || s'.workers[k].Leaving?
  }

  lemma CleanAppends(s: Session, s': Session, m: Message)
    requires Clean(s) && Appends(s, s', m)
    ensures Clean(s')
  {
  }

  /** For the sender as a caller, the frame is its own call's or no request. */
  lemma CallerAppends(s: Session, s': Session, m: Message, p: Session)
    requires Link(s, p) && Appends(s, s', m)
    requires m.Request? ==>
      m.id in s.calls && m.id !in s'.calls && m.id in s.requests && m == RequestFrame(m.id, s.requests[m.id])
    ensures Link(s', p)
  {
    assert forall k :: 0 <= k < |s.sent| ==> s'.sent[k] == s.sent[k];
  }

  /** For the sender as a server, it reports a handler's end or is no response. */
  lemma ServerAppends(s: Session, s': Session, m: Message, p: Session)
    requires Link(p, s) && Appends(s, s', m)
    requires m.Response? ==> m.target.Some? && HandledWith(s, m.target.value, m.outcome)
    ensures Link(p, s')
  {
    assert forall x, o :: HandledWith(s', x, o) == HandledWith(s, x, o);
  }

  lemma LinkSendOk(s: Session, id: RequestId, p: Session)
    requires Clean(s) && CanCall(s, id, SendOk) && Link(s, p) && Link(p, s)
    ensures var s' := DoCall(s, id, SendOk); Clean(s') && Link(s', p) && Link(p, s')
  {
    var s' := DoCall(s, id, SendOk);
    var m := RequestFrame(id, s.requests[id]);
    CleanAppends(s, s', m);
    CallerAppends(s, s', m, p);
    ServerAppends(s, s', m, p);
  }

  lemma LinkNotify(s: Session, name: string, params: Value, p: Session)
    requires Clean(s) && Link(s, p) && Link(p, s)
    ensures var s' := DoNotify(s, name, params); Clean(s') && Link(s', p) && Link(p, s')
  {
    var s' := DoNotify(s, name, params);
    var m := Notification(name, OptParams(params));
    CleanAppends(s, s', m);
    CallerAppends(s, s', m, p);
    ServerAppends(s, s', m, p);
  }

  lemma LinkReplySent(s: Session, k: nat, p: Session)
    requires Clean(s) && CanWork(s, k, Reply(true)) && Link(s, p) && Link(p, s)
    ensures var s' := DoWork(s, k, Reply(true)); Clean(s') && Link(s', p) && Link(p, s')
  {
    var s' := DoWork(s, k, Reply(true));
    var m := Response(Some(s.workers[k].id), s.workers[k].outcome);
    assert CleanWorker(s.workers[k]);
    assert HandledWith(s, s.workers[k].id, s.workers[k].outcome);
    CleanAppends(s, s', m);
    CallerAppends(s, s', m, p);
    ServerAppends(s, s', m, p);
  }

  lemma QuietWork(s: Session, k: nat, step: WorkStep)
    requires Clean(s) && CanWork(s, k, step) && (step == Reply(false) || step.Leave?)
    ensures QuietStep(s, DoWork(s, k, step))
  {
  }

  lemma FinishKeepsReplies(s: Session, k: nat, exit: Exit)
    requires CanWork(s, k, Finish(exit)) && k !in s.handled && RepliesHonest(s)
    ensures RepliesHonest(DoWork(s, k, Finish(exit)))
    ensures forall x, o :: HandledWith(s, x, o) ==> HandledWith(DoWork(s, k, Finish(exit)), x, o)
  {
    forall x, o | HandledWith(s, x, o) ensures HandledWith(DoWork(s, k, Finish(exit)), x, o) {
      HandledStays(s, DoWork(s, k, Finish(exit)), x, o);
    }
  }

  lemma FinishHandled(s: Session, k: nat, exit: Exit, p: Session)
    requires CanWork(s, k, Finish(exit)) && WorkersServe(p, s)
    ensures forall j :: j in DoWork(s, k, Finish(exit)).handled ==>
      j < s.received && p.sent[j].Request? && DoWork(s, k, Finish(exit)).handled[j].req == p.sent[j]
  {
    var handled := s.handled[k := Handled(s.workers[k].req, exit)];
    assert DoWork(s, k, Finish(exit)).handled == handled;
  }

  lemma FinishOther(s: Session, k: nat, exit: Exit, p: Session, j: nat)
    requires CanWork(s, k, Finish(exit)) && j in s.workers && j != k && WorkerServes(p, s, j)
    ensures j in DoWork(s, k, Finish(exit)).workers && WorkerServes(p, DoWork(s, k, Finish(exit)), j)
  {
  }

  lemma FinishOwn(s: Session, k: nat, exit: Exit, p: Session)
    requires CanWork(s, k, Finish(exit)) && WorkerServes(p, s, k)
    ensures k in DoWork(s, k, Finish(exit)).workers && WorkerServes(p, DoWork(s, k, Finish(exit)), k)
  {
  }

  lemma FinishWorkers(s: Session, k: nat, exit: Exit, p: Session)
    requires CanWork(s, k, Finish(exit)) && WorkersServe(p, s)
    ensures WorkersServe(p, DoWork(s, k, Finish(exit)))
  {
    FinishHandled(s, k, exit, p);
    forall j | j in DoWork(s, k, Finish(exit)).workers ensures WorkerServes(p, DoWork(s, k, Finish(exit)), j) {
      if j == k {
        FinishOwn(s, k, exit, p);
      } else {
        FinishOther(s, k, exit, p, j);
      }
    }
  }

  lemma VerdictsStay(p: Session, s: Session, s': Session)
    requires VerdictsHonest(p, s) && forall x, o :: HandledWith(s, x, o) ==> HandledWith(s', x, o)
    ensures VerdictsHonest(p, s')
  {
  }

  lemma FinishServes(s: Session, k: nat, exit: Exit, p: Session)
    requires CanWork(s, k, Finish(exit)) && Link(p, s)
    ensures Link(p, DoWork(s, k, Finish(exit)))
  {
    assert k !in s.handled;
    FinishWorkers(s, k, exit, p);
    FinishKeepsReplies(s, k, exit);
    VerdictsStay(p, s, DoWork(s, k, Finish(exit)));
  }

  /** What the link asks of the caller's side. */
  lemma SameCaller(s: Session, s': Session, p: Session)
    requires Link(s, p)
    requires s'.sent == s.sent && s'.calls == s.calls && s'.requests == s.requests && s'.removed == s.removed
    ensures Link(s', p)
  {
  }

  lemma CleanFinish(s: Session, k: nat, exit: Exit)
    requires Clean(s) && CanWork(s, k, Finish(exit))
    ensures Clean(DoWork(s, k, Finish(exit)))
  {
    assert CleanWorker(s.workers[k]);
  }

  lemma LinkFinish(s: Session, k: nat, exit: Exit, p: Session)
    requires Clean(s) && CanWork(s, k, Finish(exit)) && Link(s, p) && Link(p, s)
    ensures var s' := DoWork(s, k, Finish(exit)); Clean(s') && Link(s', p) && Link(p, s')
  {
    CleanFinish(s, k, exit);
    SameCaller(s, DoWork(s, k, Finish(exit)), p);
    FinishServes(s, k, exit, p);
  }

  // ------------------------------------------------------------ arrival

  /** A clean frame is read as it was sent. */
  lemma CleanArrives(from: Session, to: Session)
    requires Clean(from) && to.received < |from.sent|
    ensures NextFrame(from, to) == Frame(from.sent[to.received])
  {
    RoundTrip(from.sent[to.received]);
  }

  lemma ReceiveAsServer(s: Session, p: Session)
    requires s.received < |p.sent| && Link(p, s)
    ensures Link(p, DoReceive(s, Frame(p.sent[s.received])))
  {
    var s' := DoReceive(s, Frame(p.sent[s.received]));
    assert forall x, o :: HandledWith(s', x, o) == HandledWith(s, x, o);
  }

  lemma ReceiveVerdict(s: Session, p: Session)
    requires s.received < |p.sent| && RepliesHonest(p) && VerdictsHonest(s, p)
    ensures VerdictsHonest(DoReceive(s, Frame(p.sent[s.received])), p)
  {
    var m := p.sent[s.received];
    if Matches(s, Frame(m)) {
      assert OutcomeIn(VerdictOf(m.outcome)) == m.outcome;
    }
  }

  lemma ReceiveAsCaller(s: Session, p: Session)
    requires s.received < |p.sent| && Link(s, p)
    ensures Link(DoReceive(s, Frame(p.sent[s.received])), p)
  {
    ReceiveVerdict(s, p);
    var s' := DoReceive(s, Frame(p.sent[s.received]));
    assert s'.sent == s.sent && s'.calls == s.calls && s'.requests == s.requests;
  }

  lemma LinkReceive(s: Session, p: Session)
    requires Clean(s) && s.received < |p.sent| && CleanMessage(p.sent[s.received])
    requires Link(s, p) && Link(p, s)
    ensures var s' := DoReceive(s, Frame(p.sent[s.received]));
      Clean(s') && Link(s', p) && Link(p, s')
  {
    ReceiveAsServer(s, p);
    ReceiveAsCaller(s, p);
  }

  // ------------------------------------------------------------- runs

  lemma LinkCall(s: Session, id: RequestId, step: CallStep, p: Session)
    requires Clean(s) && CanCall(s, id, step) && Link(s, p) && Link(p, s)
    ensures var s' := DoCall(s, id, step); Clean(s') && Link(s', p) && Link(p, s')
  {
    if step.SendOk? {
      LinkSendOk(s, id, p);
    } else {
      QuietCall(s, id, step);
      LinkQuiet(s, DoCall(s, id, step), p);
    }
  }

  lemma LinkIssue(s: Session, name: string, params: Value, timeout: int, p: Session)
    requires Inv(s) && Clean(s) && IsInt64(s.next) && Link(s, p) && Link(p, s)
    ensures var s' := DoIssue(s, name, params, timeout); Clean(s') && Link(s', p) && Link(p, s')
  {
    QuietIssue(s, name, params, timeout);
    LinkQuiet(s, DoIssue(s, name, params, timeout), p);
  }

  lemma LinkTime(s: Session, step: TimerStep, p: Session)
    requires Clean(s) && CanTime(s, step) && Link(s, p) && Link(p, s)
    ensures var s' := DoTime(s, step); Clean(s') && Link(s', p) && Link(p, s')
  {
    QuietTime(s, step);
    LinkQuiet(s, DoTime(s, step), p);
  }

  lemma LinkClose(s: Session, t: nat, step: CloseStep, p: Session)
    requires Clean(s) && CanClose(s, t, step) && Link(s, p) && Link(p, s)
    ensures var s' := DoClose(s, t, step); Clean(s') && Link(s', p) && Link(p, s')
  {
    QuietClose(s, t, step);
    LinkQuiet(s, DoClose(s, t, step), p);
  }

  lemma LinkStart(s: Session, step: StartStep, p: Session)
    requires Clean(s) && CanStart(s, step) && Link(s, p) && Link(p, s)
    ensures var s' := DoStart(s, step); Clean(s') && Link(s', p) && Link(p, s')
  {
    QuietStart(s, step);
    LinkQuiet(s, DoStart(s, step), p);
  }

  lemma LinkTick(s: Session, to: int, p: Session)
    requires Clean(s) && Link(s, p) && Link(p, s)
    ensures var s' := DoTick(s, to); Clean(s') && Link(s', p) && Link(p, s')
  {
    LinkQuiet(s, DoTick(s, to), p);
  }

  lemma LinkSettle(s: Session, i: nat, p: Session)
    requires Clean(s) && Link(s, p) && Link(p, s)
    ensures var s' := DoSettle(s, i); Clean(s') && Link(s', p) && Link(p, s')
  {
    LinkQuiet(s, DoSettle(s, i), p);
  }

  lemma LinkStep(s: Session, act: Action, p: Session)
    requires Inv(s) && Clean(s) && !act.Receive? && Enabled(s, act)
    requires Link(s, p) && Link(p, s)
    ensures Clean(Do(s, act)) && Link(Do(s, act), p) && Link(p, Do(s, act))
  {
    match act
    case Issue(name, params, timeout) => LinkIssue(s, name, params, timeout, p);
    case Call(id, step) => LinkCall(s, id, step, p);
    case Notify(name, params) => LinkNotify(s, name, params, p);
    case Work(k, step) => LinkWork(s, k, step, p);
    case Timeout(step) => LinkTime(s, step, p);
    case Close(t, step) => LinkClose(s, t, step, p);
    case Start(step) => LinkStart(s, step, p);
    case Tick(to) => LinkTick(s, to, p);
    case Settle(i) => LinkSettle(s, i, p);
  }

  lemma LinkWork(s: Session, k: nat, step: WorkStep, p: Session)
    requires Clean(s) && CanWork(s, k, step) && Link(s, p) && Link(p, s)
    ensures var s' := DoWork(s, k, step); Clean(s') && Link(s', p) && Link(p, s')
  {
    match step
    case Finish(exit) => LinkFinish(s, k, exit, p);
    case Reply(true) => LinkReplySent(s, k, p);
    case _ =>
      QuietWork(s, k, step);
      LinkQuiet(s, DoWork(s, k, step), p);
  }

  ghost predicate NetGood(n: Net) {
    NetInv(n) && Inv(n.a) && Inv(n.b)
  }

  lemma NetStep(n: Net, x: NetAction)
    requires NetGood(n) && NetEnabled(n, x)
    ensures NetGood(NetDo(n, x))
  {
    match x
    case AtA(act) =>
      InvStep(n.a, act);
      LinkStep(n.a, act, n.b);
    case AtB(act) =>
      InvStep(n.b, act);
      LinkStep(n.b, act, n.a);
    case ToA =>
      CleanArrives(n.b, n.a);
      InvStep(n.a, Receive(NextFrame(n.b, n.a)));
      LinkReceive(n.a, n.b);
    case ToB =>
      CleanArrives(n.a, n.b);
      InvStep(n.b, Receive(NextFrame(n.a, n.b)));
      LinkReceive(n.b, n.a);
  }

  lemma {:induction false} NetRun(n: Net, xs: seq<NetAction>)
    requires NetGood(n) && NetRuns(n, xs)
    ensures NetGood(NetEnd(n, xs))
    decreases |xs|
  {
    if xs != [] {
      NetStep(n, xs[0]);
      NetRun(NetDo(n, xs[0]), xs[1..]);
    }
  }

  /** The peer's handler run for a call: the only one, for that very id, method
      and params. */
  ghost predicate HandledFor(a: Session, b: Session, id: RequestId, k: nat) {
    && k in b.handled && id in a.requests
    && b.handled[k].req == RequestFrame(id, a.requests[id])
    && b.handled[k].req.name == a.requests[id].name
    && HandlerParams(b.handled[k].req) == a.requests[id].params
    && forall l :: l in b.handled && b.handled[l].req.Request? && b.handled[l].req.id == id ==> l == k
  }

  ghost predicate Answered(a: Session, b: Session, id: RequestId, result: Value, k: nat) {
    HandledFor(a, b, id, k) && b.handled[k].exit == Returned(result)
  }

  /** The error a caller is given for the way a handler ended: an Error it threw is
      passed on whole; a JSON exception is invalid params, any other an internal
      error; without a handler the method is not found. */
  predicate Reports(exit: Exit, name: string, e: ErrorObject) {
    match exit
    case Returned(_) => false
    case ThrewError(x) => e == x
    case ThrewJson(what) => e.code == INVALID_PARAMS && e.message == "invalid params: " + what && e.data.Null?
    case ThrewStd(what) => e.code == INTERNAL_ERROR && e.message == "handler threw: " + what && e.data.Null?
    case ThrewOther =>
      e.code == INTERNAL_ERROR && e.message == "handler threw a non-std exception" && e.data.Null?
    case NoHandler => e.code == METHOD_NOT_FOUND && e.message == "method not found: " + name && e.data.Null?
  }

  ghost predicate Refused(a: Session, b: Session, id: RequestId, e: ErrorObject, k: nat) {
    HandledFor(a, b, id, k) && Reports(b.handled[k].exit, b.handled[k].req.name, e)
  }

  lemma FindHandler(a: Session, b: Session, id: RequestId, outcome: Outcome) returns (k: nat)
    requires Link(a, b) && HandledWith(b, id, outcome)
    ensures HandledFor(a, b, id, k) && IsReply(b.handled[k], id, outcome)
  {
    k :| k in b.handled && IsReply(b.handled[k], id, outcome);
    assert a.sent[k] == RequestFrame(id, a.requests[id]);
  }

  lemma Correlate(a: Session, b: Session, i: nat, result: Value)
    requires Link(a, b) && i < |a.removed| && a.removed[i].verdict == Resolved(result)
    ensures exists k :: Answered(a, b, a.removed[i].id, result, k)
  {
    var k := FindHandler(a, b, a.removed[i].id, Success(result));
    assert Answered(a, b, a.removed[i].id, result, k);
  }

  lemma OutcomeReports(exit: Exit, name: string, e: ErrorObject)
    requires OutcomeOf(exit, name) == Failure(e)
    ensures Reports(exit, name, e)
  {
  }

  lemma CorrelateError(a: Session, b: Session, i: nat, e: ErrorObject)
    requires Link(a, b) && i < |a.removed| && a.removed[i].verdict == PeerError(e)
    ensures exists k :: Refused(a, b, a.removed[i].id, e, k)
  {
    var k := FindHandler(a, b, a.removed[i].id, Failure(e));
    OutcomeReports(b.handled[k].exit, b.handled[k].req.name, e);
    assert Refused(a, b, a.removed[i].id, e, k);
  }

  /** The sessions at the end of a run from two fresh ones. */
  lemma FreshLinked(da: int, db: int, xs: seq<NetAction>)
    requires NetRuns(Net(Init(da), Init(db)), xs)
    ensures var n := NetEnd(Net(Init(da), Init(db)), xs); Link(n.a, n.b) && Link(n.b, n.a)
  {
    InvInit(da);
    InvInit(db);
    NetRun(Net(Init(da), Init(db)), xs);
  }

  /** End to end, for any two Sessions however their steps and their frames
      interleave, both issuing from id 1 and nesting calls: a promise given a
      success is given what the peer's one handler run for that call returned. */
  lemma EndToEnd(da: int, db: int, xs: seq<NetAction>, i: nat, result: Value)
    requires NetRuns(Net(Init(da), Init(db)), xs)
    ensures var n := NetEnd(Net(Init(da), Init(db)), xs);
      && (i < |n.a.removed| && n.a.removed[i].verdict == Resolved(result) ==>
           exists k :: Answered(n.a, n.b, n.a.removed[i].id, result, k))
      && (i < |n.b.removed| && n.b.removed[i].verdict == Resolved(result) ==>
           exists k :: Answered(n.b, n.a, n.b.removed[i].id, result, k))
  {
    FreshLinked(da, db, xs);
    var n := NetEnd(Net(Init(da), Init(db)), xs);
    if i < |n.a.removed| && n.a.removed[i].verdict == Resolved(result) {
      Correlate(n.a, n.b, i, result);
    }
    if i < |n.b.removed| && n.b.removed[i].verdict == Resolved(result) {
      Correlate(n.b, n.a, i, result);
    }
  }

  /** The same of an error the peer sent: it reports how the peer's one handler run
      for that call ended, and an Error thrown there arrives whole. */
  lemma ErrorEndToEnd(da: int, db: int, xs: seq<NetAction>, i: nat, e: ErrorObject)
    requires NetRuns(Net(Init(da), Init(db)), xs)
    ensures var n := NetEnd(Net(Init(da), Init(db)), xs);
      && (i < |n.a.removed| && n.a.removed[i].verdict == PeerError(e) ==>
           exists k :: Refused(n.a, n.b, n.a.removed[i].id, e, k))
      && (i < |n.b.removed| && n.b.removed[i].verdict == PeerError(e) ==>
           exists k :: Refused(n.b, n.a, n.b.removed[i].id, e, k))
  {
    FreshLinked(da, db, xs);
    var n := NetEnd(Net(Init(da), Init(db)), xs);
    if i < |n.a.removed| && n.a.removed[i].verdict == PeerError(e) {
      CorrelateError(n.a, n.b, i, e);
    }
    if i < |n.b.removed| && n.b.removed[i].verdict == PeerError(e) {
      CorrelateError(n.b, n.a, i, e);
    }
  }

  /** A response that comes after its request timed out, was cancelled or was
      answered changes nothing: it settles neither that request nor another. */
  lemma LateResponseIgnored(d: int, acts: seq<Action>, target: RequestId, outcome: Outcome, i: nat)
    requires Runs(Init(d), acts)
    requires var s := End(Init(d), acts); i < |s.removed| && s.removed[i].id == target
    ensures var s := End(Init(d), acts);
      DoReceive(s, Frame(Response(Some(target), outcome))) == s.(received := s.received + 1)
  {
    InvInit(d);
    InvRun(Init(d), acts);
  }
}
