// Every interleaving of the threads that use a TaskStore: tools/call handlers,
// their workers, cancellers, collection and shutdown (src/server.cpp:182-449 and
// 886-930). One action per lock region or call of the status listener.
module TaskRuns {
  import opened Wrappers
  import opened Json
  import opened TaskRegions

  /** One notifications/tasks/status: the projection's id and status. */
  datatype Note = Note(id: string, status: Status)

  /** The thread in charge of a task: the tools/call handler after create, before
      and after worker_started; then the worker, until and after it has called
      complete or fail. */
  datatype Pc = Announcing | Counted | Running | Settled

  /** How a task ended: with the tool's result, with an error, or cancelled. */
  datatype Fate = Done(result: Value) | Broke(message: string) | Stopped

  function StatusOf(f: Fate): Status {
    match f
    case Done(_) => Completed
    case Broke(_) => Failed
    case Stopped => Cancelled
  }

  /** `minted` and `ends` are history: the ids ever created, and the fate each task
      met first. A note is owed from the region that takes the
      projection until the listener has been called with it. */
  datatype World = World(
    store: Store,
    now: int,
    minted: set<string>,
    ends: map<string, Fate>,
    threads: map<string, Pc>,
    inflight: int,
    owed: multiset<Note>,
    heard: seq<Note>)

  datatype Action =
    | Create(id: string, ttl: Option<int>)
    | Tell(note: Note)
    | WorkerStarted(id: string)
    | Spawn(id: string)
    | Complete(id: string, result: Value)
    | Fail(id: string, message: string)
    | Cancel(id: string)
    | WorkerFinished(id: string)
    | Collect
    | Advance(d: nat)
    | Shutdown

  const INIT := World(EMPTY, 0, {}, map[], map[], 0, multiset{}, [])

  predicate At(w: World, id: string, pc: Pc) {
    id in w.threads && w.threads[id] == pc
  }

  /** The listener has returned for both ways a worker can end its task. */
  predicate WorkerTold(w: World, id: string) {
    Note(id, Completed) !in w.owed && Note(id, Failed) !in w.owed
  }

  predicate Enabled(w: World, a: Action) {
    match a
    case Create(id, _) => id !in w.minted
    case Tell(n) => n in w.owed
    case WorkerStarted(id) => At(w, id, Announcing) && Note(id, Working) !in w.owed
    case Spawn(id) => At(w, id, Counted)
    case Complete(id, _) => At(w, id, Running)
    case Fail(id, _) => At(w, id, Running)
    case Cancel(_) => true
    case WorkerFinished(id) => At(w, id, Settled) && WorkerTold(w, id)
    case Collect => true
    case Advance(_) => true
    case Shutdown => true
  }

  /** A region that may end task id, with fate f. */
  function Ended(w: World, id: string, c: Change, f: Fate): World {
    if c.note.None? then w.(store := c.store)
    else w.(store := c.store,
            ends := w.ends[id := f],
            owed := w.owed + multiset{Note(id, c.note.value.status)})
  }

  function DoCreate(w: World, id: string, ttl: Option<int>): World {
    w.(store := TaskRegions.Create(w.store, id, ttl, w.now).store,
       minted := w.minted + {id},
       threads := w.threads[id := Announcing],
       owed := w.owed + multiset{Note(id, Working)})
  }

  function DoTell(w: World, n: Note): World {
    w.(owed := w.owed - multiset{n}, heard := w.heard + [n])
  }

  function DoCount(w: World, id: string): World {
    w.(threads := w.threads[id := Counted], inflight := w.inflight + 1)
  }

  function DoSpawn(w: World, id: string): World {
    w.(threads := w.threads[id := Running])
  }

  function DoComplete(w: World, id: string, result: Value): World {
    Ended(w, id, TaskRegions.Complete(w.store, id, result), Done(result)).(threads := w.threads[id := Settled])
  }

  function DoFail(w: World, id: string, message: string): World {
    Ended(w, id, TaskRegions.Fail(w.store, id, message), Broke(message)).(threads := w.threads[id := Settled])
  }

  function DoCancel(w: World, id: string): World {
    Ended(w, id, TaskRegions.Cancel(w.store, id), Stopped)
  }

  function DoCollect(w: World): World {
    w.(store := TaskRegions.Collect(w.store, w.now))
  }

  function DoShutdown(w: World): World {
    w.(store := w.store.(shuttingDown := true))
  }

  function DoFinish(w: World, id: string): World {
    w.(threads := w.threads - {id}, inflight := w.inflight - 1)
  }

  function Do(w: World, a: Action): World {
    match a
    case Create(id, ttl) => DoCreate(w, id, ttl)
    case Tell(n) => DoTell(w, n)
    case WorkerStarted(id) => DoCount(w, id)
    case Spawn(id) => DoSpawn(w, id)
    case Complete(id, result) => DoComplete(w, id, result)
    case Fail(id, message) => DoFail(w, id, message)
    case Cancel(id) => DoCancel(w, id)
    case WorkerFinished(id) => DoFinish(w, id)
    case Collect => DoCollect(w)
    case Advance(d) => w.(now := w.now + d)
    case Shutdown => DoShutdown(w)
  }

  predicate Runs(w: World, acts: seq<Action>)
    decreases |acts|
  {
    acts == [] || (Enabled(w, acts[0]) && Runs(Do(w, acts[0]), acts[1..]))
  }

  function End(w: World, acts: seq<Action>): World
    requires Runs(w, acts)
    decreases |acts|
  {
    if acts == [] then w else End(Do(w, acts[0]), acts[1..])
  }

  // ---------------------------------------------------------- invariants

  /** The workers the count stands for: running, or about to be spawned. */
  predicate InFlight(w: World, id: string) {
    id in w.threads && !w.threads[id].Announcing?
  }

  function InFlightIds(threads: map<string, Pc>): set<string> {
    set id | id in threads && !threads[id].Announcing?
  }

  ghost predicate CountKept(w: World) {
    w.inflight == |InFlightIds(w.threads)|
  }

  /** Every live task has a thread that will still end it. */
  ghost predicate Owned(w: World) {
    && w.threads.Keys <= w.minted
    && w.store.entries.Keys <= w.minted
    && forall id :: Live(w.store, id) ==> id in w.threads && !w.threads[id].Settled?
  }

  /** The entry says of its task what became of it. */
  predicate Shows(e: Entry, f: Fate) {
    && e.task.status == StatusOf(f)
    && match f
       case Done(v) => e.result == Some(v)
       case Broke(m) => e.error == Some(m) && e.task.message == Some(m)
       case Stopped => e.cancelled
  }

  /** A task ends once, and ended is what the store says while it holds it. */
  ghost predicate EndsKept(w: World) {
    && (forall id :: id in w.ends ==> id in w.minted)
    && (forall id :: id in w.minted && id !in w.ends ==> Live(w.store, id))
    && (forall id :: id in w.store.entries && id in w.ends ==> Shows(w.store.entries[id], w.ends[id]))
  }

  function Raised(w: World): multiset<Note> {
    w.owed + multiset(w.heard)
  }

  /** Exactly one note per transition. */
  function Due(w: World, n: Note): nat {
    if n.status.Working? then (if n.id in w.minted then 1 else 0)
    else if n.id in w.ends && StatusOf(w.ends[n.id]) == n.status then 1 else 0
  }

  ghost predicate Noted(w: World) {
    forall n :: Raised(w)[n] == Due(w, n)
  }

  predicate ByWorker(s: Status) {
    s.Completed? || s.Failed?
  }

  /** A worker starts only after its task has been announced. */
  ghost predicate Announced(w: World) {
    && (forall id :: InFlight(w, id) ==> Note(id, Working) in w.heard)
    && (forall n :: n in w.owed && ByWorker(n.status) ==> Note(n.id, Working) in w.heard)
    && (forall j :: 0 <= j < |w.heard| && ByWorker(w.heard[j].status) ==> Note(w.heard[j].id, Working) in w.heard[..j])
  }

  ghost predicate Inv(w: World) {
    Sound(w.store) && CountKept(w) && Owned(w) && EndsKept(w) && Noted(w) && Announced(w)
  }

  lemma InvInit()
    ensures Inv(INIT)
  {
    assert InFlightIds(INIT.threads) == {};
  }

  /** What complete, fail and cancel have in common. */
  ghost predicate Settles(st: Store, id: string, c: Change, f: Fate) {
    if c.note.None? then c.store == st && !Live(st, id)
    else
      && Live(st, id)
      && c.note.value.status == StatusOf(f)
      && c.store.entries.Keys == st.entries.Keys
      && c.store.entries[id].task == c.note.value && Shows(c.store.entries[id], f)
      && c.store.entries[id].created == st.entries[id].created && c.note.value.ttl == st.entries[id].task.ttl
      && (forall x :: x in st.entries && x != id ==> c.store.entries[x] == st.entries[x])
      && c.store.order == st.order
      && Sound(c.store)
  }

  lemma CompleteSettles(st: Store, id: string, result: Value)
    requires Sound(st)
    ensures Settles(st, id, TaskRegions.Complete(st, id, result), Done(result))
  {
    CompleteSound(st, id, result);
  }

  lemma FailSettles(st: Store, id: string, message: string)
    requires Sound(st)
    ensures Settles(st, id, TaskRegions.Fail(st, id, message), Broke(message))
  {
    FailSound(st, id, message);
  }

  lemma CancelSettles(st: Store, id: string)
    requires Sound(st)
    ensures Settles(st, id, TaskRegions.Cancel(st, id), Stopped)
  {
    CancelSound(st, id);
  }

  // What each invariant depends on.

  lemma SameNotes(w: World, w': World)
    requires Noted(w)
    requires w'.owed == w.owed && w'.heard == w.heard && w'.minted == w.minted && w'.ends == w.ends
    ensures Noted(w')
  {
    forall n ensures Raised(w')[n] == Due(w', n) {
      assert Raised(w)[n] == Due(w, n);
    }
  }

  lemma SameAnnounced(w: World, w': World)
    requires Announced(w) && (forall id :: InFlight(w', id) ==> InFlight(w, id))
    requires w'.owed == w.owed && w'.heard == w.heard
    ensures Announced(w')
  {
  }

  /** A live task has not ended. */
  lemma LiveNotEnded(w: World, id: string)
    requires EndsKept(w) && Live(w.store, id)
    ensures id !in w.ends
  {
  }

  lemma EndsKeptEnded(w: World, id: string, c: Change, f: Fate)
    requires EndsKept(w) && Settles(w.store, id, c, f) && w.store.entries.Keys <= w.minted
    ensures EndsKept(Ended(w, id, c, f))
  {
    if Live(w.store, id) {
      LiveNotEnded(w, id);
    }
  }

  lemma NotedEnded(w: World, id: string, c: Change, f: Fate)
    requires Noted(w) && Settles(w.store, id, c, f) && (Live(w.store, id) ==> id !in w.ends)
    ensures Noted(Ended(w, id, c, f))
  {
    var w' := Ended(w, id, c, f);
    forall n ensures Raised(w')[n] == Due(w', n) {
      assert Raised(w)[n] == Due(w, n);
    }
  }

  /** Ending a task needs no owner any more; the others keep theirs. */
  lemma OwnedEnded(w: World, id: string, c: Change, f: Fate)
    requires Owned(w) && Settles(w.store, id, c, f)
    ensures Owned(Ended(w, id, c, f)) && !Live(Ended(w, id, c, f).store, id)
  {
    var w' := Ended(w, id, c, f);
    forall x | Live(w'.store, x) ensures Live(w.store, x) {
    }
  }

  lemma AnnouncedEnded(w: World, id: string, c: Change, f: Fate)
    requires Announced(w)
    requires c.note.Some? && ByWorker(c.note.value.status) ==> InFlight(w, id)
    ensures Announced(Ended(w, id, c, f))
  {
    var w' := Ended(w, id, c, f);
    assert forall x :: InFlight(w', x) ==> InFlight(w, x);
  }

  lemma InvEnded(w: World, id: string, c: Change, f: Fate)
    requires Inv(w) && Settles(w.store, id, c, f)
    requires c.note.Some? && ByWorker(c.note.value.status) ==> InFlight(w, id)
    ensures Inv(Ended(w, id, c, f)) && !Live(Ended(w, id, c, f).store, id)
  {
    if Live(w.store, id) {
      LiveNotEnded(w, id);
    }
    EndsKeptEnded(w, id, c, f);
    NotedEnded(w, id, c, f);
    OwnedEnded(w, id, c, f);
    AnnouncedEnded(w, id, c, f);
  }

  lemma InvSettled(w: World, id: string)
    requires Inv(w) && At(w, id, Running) && !Live(w.store, id)
    ensures Inv(w.(threads := w.threads[id := Settled]))
  {
    var w' := w.(threads := w.threads[id := Settled]);
    assert InFlightIds(w'.threads) == InFlightIds(w.threads);
    assert Owned(w');
    SameNotes(w, w');
    SameAnnounced(w, w');
  }

  lemma OwnedCreate(w: World, id: string, ttl: Option<int>)
    requires Owned(w) && id !in w.minted
    ensures Owned(DoCreate(w, id, ttl))
  {
    var w' := DoCreate(w, id, ttl);
    forall x | Live(w'.store, x) && x != id ensures Live(w.store, x) {
    }
  }

  lemma NotedCreate(w: World, id: string, ttl: Option<int>)
    requires Noted(w) && id !in w.minted
    ensures Noted(DoCreate(w, id, ttl))
  {
    var w' := DoCreate(w, id, ttl);
    forall n ensures Raised(w')[n] == Due(w', n) {
      assert Raised(w)[n] == Due(w, n);
    }
  }

  lemma AnnouncedCreate(w: World, id: string, ttl: Option<int>)
    requires Announced(w)
    ensures Announced(DoCreate(w, id, ttl))
  {
    var w' := DoCreate(w, id, ttl);
    assert forall x :: InFlight(w', x) ==> InFlight(w, x);
    assert forall n :: n in w'.owed && ByWorker(n.status) ==> n in w.owed;
  }

  lemma EndsKeptCreate(w: World, id: string, ttl: Option<int>)
    requires EndsKept(w) && id !in w.minted
    ensures EndsKept(DoCreate(w, id, ttl))
  {
  }

  lemma InvCreate(w: World, id: string, ttl: Option<int>)
    requires Inv(w) && id !in w.minted
    ensures Inv(DoCreate(w, id, ttl))
  {
    var w' := DoCreate(w, id, ttl);
    CreateSound(w.store, id, ttl, w.now);
    assert InFlightIds(w'.threads) == InFlightIds(w.threads);
    OwnedCreate(w, id, ttl);
    NotedCreate(w, id, ttl);
    AnnouncedCreate(w, id, ttl);
    EndsKeptCreate(w, id, ttl);
  }

  lemma AnnouncedTell(w: World, n: Note)
    requires Announced(w) && n in w.owed
    ensures Announced(DoTell(w, n))
  {
    var w' := DoTell(w, n);
    assert forall x :: InFlight(w', x) ==> InFlight(w, x);
    assert forall m :: m in w.heard ==> m in w'.heard;
    forall j | 0 <= j < |w'.heard| && ByWorker(w'.heard[j].status)
      ensures Note(w'.heard[j].id, Working) in w'.heard[..j]
    {
      assert w'.heard[..j] == w.heard[..j];
      assert w.heard[..|w.heard|] == w.heard;
    }
  }

  lemma InvTell(w: World, n: Note)
    requires Inv(w) && n in w.owed
    ensures Inv(DoTell(w, n))
  {
    var w' := DoTell(w, n);
    AnnouncedTell(w, n);
    assert Noted(w') by {
      forall m ensures Raised(w')[m] == Due(w', m) {
        assert Raised(w)[m] == Due(w, m);
      }
    }
  }

  lemma InvCount(w: World, id: string)
    requires Inv(w) && Enabled(w, WorkerStarted(id))
    ensures Inv(DoCount(w, id))
  {
    var w' := DoCount(w, id);
    assert InFlightIds(w'.threads) == InFlightIds(w.threads) + {id};
    SameNotes(w, w');
    WorkingHeard(w, id);
    AnnouncedCount(w, id);
  }

  /** The handler has been through the listener. */
  lemma WorkingHeard(w: World, id: string)
    requires Noted(w) && id in w.minted && Note(id, Working) !in w.owed
    ensures Note(id, Working) in w.heard
  {
    assert Raised(w)[Note(id, Working)] == Due(w, Note(id, Working));
  }

  lemma AnnouncedCount(w: World, id: string)
    requires Announced(w) && Note(id, Working) in w.heard
    ensures Announced(DoCount(w, id))
  {
    assert forall x :: InFlight(DoCount(w, id), x) ==> x == id || InFlight(w, x);
  }

  lemma InvSpawn(w: World, id: string)
    requires Inv(w) && Enabled(w, Spawn(id))
    ensures Inv(DoSpawn(w, id))
  {
    var w' := DoSpawn(w, id);
    assert InFlightIds(w'.threads) == InFlightIds(w.threads);
    SameNotes(w, w');
    SameAnnounced(w, w');
  }

  lemma InvFinish(w: World, id: string)
    requires Inv(w) && Enabled(w, WorkerFinished(id))
    ensures Inv(DoFinish(w, id))
  {
    var w' := DoFinish(w, id);
    assert InFlightIds(w'.threads) == InFlightIds(w.threads) - {id};
    SameNotes(w, w');
    SameAnnounced(w, w');
  }

  /** Collection, time and the shutdown flag end no task. */
  lemma InvQuiet(w: World, st: Store, now: int)
    requires Inv(w) && Sound(st) && st.entries.Keys <= w.store.entries.Keys
    requires forall id :: id in st.entries ==> st.entries[id] == w.store.entries[id]
    requires forall id :: Live(w.store, id) ==> id in st.entries
    ensures Inv(w.(store := st, now := now))
  {
    var w' := w.(store := st, now := now);
    SameNotes(w, w');
    SameAnnounced(w, w');
  }

  lemma InvComplete(w: World, id: string, result: Value)
    requires Inv(w) && Enabled(w, Complete(id, result))
    ensures Inv(DoComplete(w, id, result))
  {
    var c := TaskRegions.Complete(w.store, id, result);
    CompleteSettles(w.store, id, result);
    InvEnded(w, id, c, Done(result));
    InvSettled(Ended(w, id, c, Done(result)), id);
  }

  lemma InvFail(w: World, id: string, message: string)
    requires Inv(w) && Enabled(w, Fail(id, message))
    ensures Inv(DoFail(w, id, message))
  {
    var c := TaskRegions.Fail(w.store, id, message);
    FailSettles(w.store, id, message);
    InvEnded(w, id, c, Broke(message));
    InvSettled(Ended(w, id, c, Broke(message)), id);
  }

  lemma InvCancel(w: World, id: string)
    requires Inv(w)
    ensures Inv(DoCancel(w, id))
  {
    CancelSettles(w.store, id);
    InvEnded(w, id, TaskRegions.Cancel(w.store, id), Stopped);
  }

  lemma InvCollect(w: World)
    requires Inv(w)
    ensures Inv(DoCollect(w))
  {
    CollectSound(w.store, w.now);
    InvQuiet(w, TaskRegions.Collect(w.store, w.now), w.now);
  }

  lemma InvShutdown(w: World)
    requires Inv(w)
    ensures Inv(DoShutdown(w))
  {
    InvQuiet(w, w.store.(shuttingDown := true), w.now);
  }

  lemma InvAdvance(w: World, d: nat)
    requires Inv(w)
    ensures Inv(w.(now := w.now + d))
  {
    InvQuiet(w, w.store, w.now + d);
  }

  predicate ByThread(a: Action) {
    a.WorkerStarted? || a.Spawn? || a.Complete? || a.Fail? || a.WorkerFinished?
  }

  /** The steps of the thread in charge of a task. */
  lemma InvThread(w: World, a: Action)
    requires Inv(w) && Enabled(w, a) && ByThread(a)
    ensures Inv(Do(w, a))
  {
    match a
    case WorkerStarted(id) => InvCount(w, id);
    case Spawn(id) => InvSpawn(w, id);
    case Complete(id, result) => InvComplete(w, id, result);
    case Fail(id, message) => InvFail(w, id, message);
    case WorkerFinished(id) => InvFinish(w, id);
  }

  lemma InvOther(w: World, a: Action)
    requires Inv(w) && Enabled(w, a) && !ByThread(a)
    ensures Inv(Do(w, a))
  {
    match a
    case Create(id, ttl) => InvCreate(w, id, ttl);
    case Tell(n) => InvTell(w, n);
    case Cancel(id) => InvCancel(w, id);
    case Collect => InvCollect(w);
    case Advance(d) => InvAdvance(w, d);
    case Shutdown => InvShutdown(w);
  }

  lemma InvStep(w: World, a: Action)
    requires Inv(w) && Enabled(w, a)
    ensures Inv(Do(w, a))
  {
    if ByThread(a) {
      InvThread(w, a);
    } else {
      InvOther(w, a);
    }
  }

  lemma {:induction false} InvRun(w: World, acts: seq<Action>)
    requires Inv(w) && Runs(w, acts)
    ensures Inv(End(w, acts))
    decreases |acts|
  {
    if acts != [] {
      InvStep(w, acts[0]);
      InvRun(Do(w, acts[0]), acts[1..]);
    }
  }

  ghost predicate Reachable(w: World) {
    exists acts :: Runs(INIT, acts) && End(INIT, acts) == w
  }

  lemma InitReachable()
    ensures Reachable(INIT)
  {
    assert Runs(INIT, []) && End(INIT, []) == INIT;
  }

  lemma {:induction false} RunsAppend(w: World, acts: seq<Action>, a: Action)
    requires Runs(w, acts) && Enabled(End(w, acts), a)
    ensures Runs(w, acts + [a]) && End(w, acts + [a]) == Do(End(w, acts), a)
    decreases |acts|
  {
    if acts == [] {
      assert acts + [a] == [a] && [a][1..] == [];
    } else {
      RunsAppend(Do(w, acts[0]), acts[1..], a);
      assert (acts + [a])[1..] == acts[1..] + [a];
    }
  }

  lemma StepReachable(w: World, a: Action)
    requires Reachable(w) && Enabled(w, a)
    ensures Reachable(Do(w, a))
  {
    var acts :| Runs(INIT, acts) && End(INIT, acts) == w;
    RunsAppend(INIT, acts, a);
  }

  lemma ReachableInv(w: World)
    requires Reachable(w)
    ensures Inv(w)
  {
    var acts :| Runs(INIT, acts) && End(INIT, acts) == w;
    InvInit();
    InvRun(INIT, acts);
  }
}
