// The concurrent dispatcher of src/session.cpp as a transition system: one
// action per region under pending_mu_, per access to an atomic, and per call
// made outside the locks. A region that reads closed_ while holding the mutex
// takes two actions, because closed_ can be stored between the read and the
// unlock.
module SessionMachine {
  import opened Wrappers
  import opened Json
  import opened JsonRpc

  /** What a promise is finally given. */
  datatype Verdict =
    | Resolved(result: Value)
    | PeerError(error: ErrorObject)
    | SessionClosed
    | TransportClosed
    | DuplicateId
    | SendFailed
    | TimedOut

  datatype Owner = Caller | Reader | Timer | Closer(t: nat)

  /** A request that has left the map (or never entered it): the owner alone now
      holds its promise and settles it outside the lock. */
  datatype Removal = Removal(id: RequestId, verdict: Verdict, owner: Owner)

  datatype Pending = Pending(deadline: int)

  /** What the caller asked for; params are Null when it gave none. */
  datatype Asked = Asked(name: string, params: Value, deadline: int)

  /** Where a caller stands inside register_pending. */
  datatype CallPc = Allocated | Deciding(closedSeen: bool) | Sending | Refused

  datatype Holder = Free | ByCaller(id: RequestId) | ByTimer

  /** Where the timeout thread stands. A wake time of None is an untimed wait. */
  datatype TimerPc =
    | NotSpawned
    | LoopHead(closedSeen: bool)
    | Waiting(wake: Option<int>)
    | Woken(wake: Option<int>)
    | Rejecting
    | Exited

  datatype StartPc = NotStarted | Claimed | Cleared | Running

  /** Threads inside the transport's on_close hook or inside close(). */
  datatype CloserPc =
    | HookDrained | HookDone
    | Marked(first: bool) | Drained(first: bool) | Quiet(first: bool) | Notified | Joined

  /** How a request handler ended. */
  datatype Exit =
    | Returned(result: Value)
    | ThrewError(error: ErrorObject)
    | ThrewJson(what: string)
    | ThrewStd(what: string)
    | ThrewOther
    | NoHandler

  datatype Worker = Handling(req: Message) | Replying(id: RequestId, outcome: Outcome) | Leaving

  datatype Handled = Handled(req: Message, exit: Exit)

  datatype Session = Session(
    defaultTimeout: int,
    now: int,
    next: int,
    startPc: StartPc,
    closed: bool,
    lock: Holder,
    pending: map<RequestId, Pending>,
    timer: TimerPc,
    calls: map<RequestId, CallPc>,
    closers: map<nat, CloserPc>,
    workers: map<nat, Worker>,
    // histories
    requests: map<RequestId, Asked>,
    removed: seq<Removal>,
    settled: set<nat>,      // the removals whose promise has been settled
    sent: seq<Message>,     // handed to the transport, which accepted them
    received: nat,
    handled: map<nat, Handled>,
    early: set<nat>)        // the close() calls that stored closed_ before start() had cleared it

  function Init(defaultTimeout: int): Session {
    Session(defaultTimeout, 0, 1, NotStarted, false, Free, map[], NotSpawned, map[], map[], map[],
            map[], [], {}, [], 0, map[], {})
  }

  /** What parse_message made of a frame. */
  datatype Inbound = Malformed | Frame(m: Message)

  datatype StartStep = Claim | Clear | Spawn

  datatype CallStep = Lock | Unlock | SendOk | SendFail | Reclaim

  datatype WorkStep = Finish(exit: Exit) | Reply(accepted: bool) | Leave

  datatype TimerStep = Acquire | Decide | Spurious | Expire(order: seq<RequestId>) | Rejected

  /** HookDrain and HookStore are the transport's on_close hook, the rest close(). */
  datatype CloseStep =
    | HookDrain(order: seq<RequestId>) | HookStore
    | Mark | Drain(order: seq<RequestId>) | Quiesce | Final | Join

  datatype Action =
    | Tick(to: int)
    | Start(start: StartStep)
    | Issue(name: string, params: Value, timeout: int)  // register_pending takes its id
    | Call(id: RequestId, call: CallStep)               // and goes on
    | Notify(name: string, params: Value)               // send_notification
    | Receive(frame: Inbound)                           // handle_frame
    | Work(k: nat, work: WorkStep)                      // a detached request worker
    | Timeout(timer: TimerStep)                         // timeout_loop
    | Close(t: nat, close: CloseStep)
    | Settle(i: nat)                                    // a promise, outside the lock

  // ------------------------------------------------------------- pieces

  function Effective(s: Session, timeout: int): int {
    if timeout == 0 then s.defaultTimeout else timeout
  }

  /** notify_all on timeout_cv_. */
  function Wake(t: TimerPc): TimerPc {
    if t.Waiting? then Woken(t.wake) else t
  }

  function OptParams(params: Value): Option<Value> {
    if params.Null? then None else Some(params)
  }

  /** value_or(nullptr): what a handler is given. */
  function HandlerParams(m: Message): Value
    requires !m.Response?
  {
    if m.params.Some? then m.params.value else Null
  }

  function RequestFrame(id: RequestId, c: Asked): Message {
    Request(id, c.name, OptParams(c.params))
  }

  function OutcomeOf(exit: Exit, name: string): Outcome {
    match exit
    case Returned(r) => Success(r)
    case ThrewError(e) => Failure(e)
    case ThrewJson(w) => Failure(ErrorObject(INVALID_PARAMS, "invalid params: " + w, Null))
    case ThrewStd(w) => Failure(ErrorObject(INTERNAL_ERROR, "handler threw: " + w, Null))
    case ThrewOther => Failure(ErrorObject(INTERNAL_ERROR, "handler threw a non-std exception", Null))
    case NoHandler => Failure(ErrorObject(METHOD_NOT_FOUND, "method not found: " + name, Null))
  }

  function VerdictOf(o: Outcome): Verdict {
    match o
    case Success(r) => Resolved(r)
    case Failure(e) => PeerError(e)
  }

  function Removals(order: seq<RequestId>, v: Verdict, o: Owner): seq<Removal> {
    seq(|order|, i requires 0 <= i < |order| => Removal(order[i], v, o))
  }

  /** The order lists a set of keys once each: a walk over an unordered_map. */
  predicate Enumerates(order: seq<RequestId>, keys: set<RequestId>) {
    multiset(order) == multiset(keys)
  }

  function Due(pending: map<RequestId, Pending>, now: int): set<RequestId> {
    set id | id in pending && pending[id].deadline <= now
  }

  predicate IsSoonest(pending: map<RequestId, Pending>, w: int) {
    && (exists id :: id in pending && pending[id].deadline == w)
    && forall id :: id in pending ==> w <= pending[id].deadline
  }

  predicate HoldsNone(s: Session, o: Owner) {
    forall i :: 0 <= i < |s.removed| && s.removed[i].owner == o ==> i in s.settled
  }

  predicate TypedExit(exit: Exit) {
    exit.ThrewError? ==> IsInt32(exit.error.code)
  }

  // ------------------------------------------------------------ start()

  predicate CanStart(s: Session, step: StartStep) {
    match step
    case Claim => s.startPc.NotStarted?
    case Clear => s.startPc.Claimed?
    case Spawn => s.startPc.Cleared?
  }

  function DoStart(s: Session, step: StartStep): Session
    requires CanStart(s, step)
  {
    match step
    case Claim => s.(startPc := Claimed)
    case Clear => s.(startPc := Cleared, closed := false)
    case Spawn => s.(startPc := Running, timer := Woken(None))
  }

  // --------------------------------------------------- register_pending

  function DoIssue(s: Session, name: string, params: Value, timeout: int): Session {
    var id := IntId(s.next);
    s.(next := s.next + 1, calls := s.calls[id := Allocated],
       requests := s.requests[id := Asked(name, params, s.now + Effective(s, timeout))])
  }

  predicate CanCall(s: Session, id: RequestId, step: CallStep) {
    && id in s.calls
    && id in s.requests
    && match step
       case Lock => s.lock.Free? && s.calls[id].Allocated?
       case Unlock => s.lock == ByCaller(id) && s.calls[id].Deciding?
       case SendOk => s.calls[id].Sending?
       case SendFail => s.calls[id].Sending?
       case Reclaim => s.lock.Free? && s.calls[id].Refused?
  }

  /** The second half of the region, after closed_ has been read. */
  function Park(s: Session, id: RequestId): Session
    requires CanCall(s, id, Unlock)
  {
    var seen := s.calls[id].closedSeen;
    var parked := !seen && id !in s.pending;
    s.(lock := Free,
       calls := if parked then s.calls[id := Sending] else s.calls - {id},
       pending := if parked then s.pending[id := Pending(s.requests[id].deadline)] else s.pending,
       removed := if parked then s.removed
                  else s.removed + [Removal(id, if seen then SessionClosed else DuplicateId, Caller)],
       timer := if parked then Wake(s.timer) else s.timer)
  }

  /** After a refused send: pull the entry back out, unless it has gone. */
  function TakeBack(s: Session, id: RequestId): Session {
    s.(calls := s.calls - {id},
       pending := s.pending - {id},
       removed := if id in s.pending then s.removed + [Removal(id, SendFailed, Caller)] else s.removed)
  }

  function DoCall(s: Session, id: RequestId, step: CallStep): Session
    requires CanCall(s, id, step)
  {
    match step
    case Lock => s.(lock := ByCaller(id), calls := s.calls[id := Deciding(s.closed)])
    case Unlock => Park(s, id)
    case SendOk => s.(calls := s.calls - {id}, sent := s.sent + [RequestFrame(id, s.requests[id])])
    case SendFail => s.(calls := s.calls[id := Refused])
    case Reclaim => TakeBack(s, id)
  }

  // ------------------------------------------------------- handle_frame

  predicate CanReceive(s: Session, frame: Inbound) {
    frame.Frame? && frame.m.Response? ==> s.lock.Free?
  }

  /** Whether a response finds its request parked. */
  predicate Matches(s: Session, frame: Inbound) {
    frame.Frame? && frame.m.Response? && frame.m.target.Some? && frame.m.target.value in s.pending
  }

  /** A request goes to a detached worker, known by the number of its frame; a
      response takes its entry out of the map; everything else is dropped. */
  function DoReceive(s: Session, frame: Inbound): Session {
    var hit := Matches(s, frame);
    s.(received := s.received + 1,
       workers := if frame.Frame? && frame.m.Request? then s.workers[s.received := Handling(frame.m)] else s.workers,
       pending := if hit then s.pending - {frame.m.target.value} else s.pending,
       removed := if hit then s.removed + [Removal(frame.m.target.value, VerdictOf(frame.m.outcome), Reader)]
                  else s.removed,
       timer := if hit then Wake(s.timer) else s.timer)
  }

  // ------------------------------------------------------------ workers

  predicate CanWork(s: Session, k: nat, step: WorkStep) {
    && k in s.workers
    && match step
       case Finish(exit) => s.workers[k].Handling? && s.workers[k].req.Request? && TypedExit(exit)
       case Reply(_) => s.workers[k].Replying?
       case Leave => s.workers[k].Leaving?
  }

  function DoWork(s: Session, k: nat, step: WorkStep): Session
    requires CanWork(s, k, step)
  {
    var w := s.workers[k];
    match step
    case Finish(exit) =>
      s.(workers := s.workers[k := Replying(w.req.id, OutcomeOf(exit, w.req.name))],
         handled := s.handled[k := Handled(w.req, exit)])
    case Reply(accepted) =>
      s.(workers := s.workers[k := Leaving],
         sent := if accepted then s.sent + [Response(Some(w.id), w.outcome)] else s.sent)
    case Leave => s.(workers := s.workers - {k})
  }

  // ------------------------------------------------------- timeout_loop

  predicate CanTime(s: Session, step: TimerStep) {
    match step
    case Acquire => s.lock.Free? && s.timer.Woken?
    case Decide => s.timer.LoopHead?
    case Spurious => s.timer.Waiting?
    case Expire(order) =>
      && s.lock.Free?
      && (s.timer.Waiting? || s.timer.Woken?)
      && s.timer.wake.Some? && s.timer.wake.value <= s.now
      && Enumerates(order, Due(s.pending, s.now))
    case Rejected => s.timer.Rejecting? && HoldsNone(s, Timer)
  }

  lemma {:induction false} SoonestAmong(pending: map<RequestId, Pending>, keys: set<RequestId>)
    returns (best: RequestId)
    requires keys != {} && keys <= pending.Keys
    ensures best in keys && forall k :: k in keys ==> pending[best].deadline <= pending[k].deadline
    decreases keys
  {
    best :| best in keys;
    var rest := keys - {best};
    if rest != {} {
      var other := SoonestAmong(pending, rest);
      if pending[other].deadline < pending[best].deadline {
        best := other;
      }
    }
  }

  lemma SoonestExists(pending: map<RequestId, Pending>)
    requires pending != map[]
    ensures exists id :: id in pending && forall k :: k in pending ==> pending[id].deadline <= pending[k].deadline
  {
    var best := SoonestAmong(pending, pending.Keys);
  }

  /** The least parked deadline. */
  ghost function Soonest(pending: map<RequestId, Pending>): (w: int)
    requires pending != map[]
    ensures IsSoonest(pending, w)
  {
    SoonestExists(pending);
    var id :| id in pending && forall k :: k in pending ==> pending[id].deadline <= pending[k].deadline;
    pending[id].deadline
  }

  /** The loop head after closed_ has been read: leave, or start a wait. */
  ghost function BeginWait(s: Session): Session
    requires s.timer.LoopHead?
  {
    s.(lock := Free,
       timer := if s.timer.closedSeen then Exited
                else Waiting(if s.pending == map[] then None else Some(Soonest(s.pending))))
  }

  function ExpireDue(s: Session, order: seq<RequestId>): Session {
    s.(pending := s.pending - Due(s.pending, s.now),
       removed := s.removed + Removals(order, TimedOut, Timer), timer := Rejecting)
  }

  ghost function DoTime(s: Session, step: TimerStep): Session
    requires CanTime(s, step)
  {
    match step
    case Acquire => s.(lock := ByTimer, timer := LoopHead(s.closed))
    case Decide => BeginWait(s)
    case Spurious => s.(timer := Wake(s.timer))
    case Expire(order) => ExpireDue(s, order)
    case Rejected => s.(timer := Woken(None))
  }

  // ----------------------------------------------- on_close and close()

  predicate CanClose(s: Session, t: nat, step: CloseStep) {
    match step
    case HookDrain(order) => s.lock.Free? && t !in s.closers && Enumerates(order, s.pending.Keys)
    case HookStore => t in s.closers && s.closers[t].HookDrained? && HoldsNone(s, Closer(t))
    case Mark => t !in s.closers
    case Drain(order) =>
      s.lock.Free? && t in s.closers && s.closers[t].Marked? && Enumerates(order, s.pending.Keys)
    case Quiesce =>
      t in s.closers && s.closers[t].Drained? && HoldsNone(s, Closer(t)) && s.workers == map[]
    case Final => s.lock.Free? && t in s.closers && s.closers[t].Quiet?
    case Join => t in s.closers && s.closers[t].Notified? && (s.timer.NotSpawned? || s.timer.Exited?)
  }

  /** cancel_all_pending's region. */
  function Cancel(s: Session, order: seq<RequestId>, v: Verdict, t: nat, pc: CloserPc): Session {
    s.(pending := map[], removed := s.removed + Removals(order, v, Closer(t)), timer := Wake(s.timer),
       closers := s.closers[t := pc])
  }

  function DoClose(s: Session, t: nat, step: CloseStep): Session
    requires CanClose(s, t, step)
  {
    match step
    case HookDrain(order) => Cancel(s, order, TransportClosed, t, HookDrained)
    case HookStore => s.(closed := true, closers := s.closers[t := HookDone])
    case Mark =>
      s.(closed := true, closers := s.closers[t := Marked(!s.closed)],
         early := if s.startPc.NotStarted? || s.startPc.Claimed? then s.early + {t} else s.early)
    case Drain(order) => Cancel(s, order, SessionClosed, t, Drained(s.closers[t].first))
    case Quiesce => s.(closers := s.closers[t := Quiet(s.closers[t].first)])
    case Final => s.(timer := Wake(s.timer), closers := s.closers[t := Notified])
    case Join => s.(closers := s.closers[t := Joined])
  }

  // -------------------------------------------------------------- steps

  function DoTick(s: Session, to: int): Session {
    s.(now := to)
  }

  function DoNotify(s: Session, name: string, params: Value): Session {
    s.(sent := s.sent + [Notification(name, OptParams(params))])
  }

  function DoSettle(s: Session, i: nat): Session {
    s.(settled := s.settled + {i})
  }

  predicate Enabled(s: Session, a: Action) {
    match a
    case Tick(to) => s.now <= to
    case Start(step) => CanStart(s, step)
    case Issue(_, _, _) => IsInt64(s.next)
    case Call(id, step) => CanCall(s, id, step)
    case Notify(_, _) => true
    case Receive(frame) => CanReceive(s, frame)
    case Work(k, step) => CanWork(s, k, step)
    case Timeout(step) => CanTime(s, step)
    case Close(t, step) => CanClose(s, t, step)
    case Settle(i) => i < |s.removed| && i !in s.settled
  }

  ghost function Do(s: Session, a: Action): Session
    requires Enabled(s, a)
  {
    match a
    case Tick(to) => DoTick(s, to)
    case Start(step) => DoStart(s, step)
    case Issue(name, params, timeout) => DoIssue(s, name, params, timeout)
    case Call(id, step) => DoCall(s, id, step)
    case Notify(name, params) => DoNotify(s, name, params)
    case Receive(frame) => DoReceive(s, frame)
    case Work(k, step) => DoWork(s, k, step)
    case Timeout(step) => DoTime(s, step)
    case Close(t, step) => DoClose(s, t, step)
    case Settle(i) => DoSettle(s, i)
  }

  // --------------------------------------------------------------- runs

  /** The actions can be taken one after the other from s. */
  ghost predicate Runs(s: Session, acts: seq<Action>)
    decreases |acts|
  {
    acts == [] || (Enabled(s, acts[0]) && Runs(Do(s, acts[0]), acts[1..]))
  }

  ghost function End(s: Session, acts: seq<Action>): Session
    requires Runs(s, acts)
    decreases |acts|
  {
    if acts == [] then s else End(Do(s, acts[0]), acts[1..])
  }
}
