// Properties of whole runs over a TaskStore, and of listing it while it changes.
module TaskTheorems {
  import opened Wrappers
  import opened Json
  import opened Pagination
  import opened TaskRegions
  import opened TaskRuns

  // ------------------------------------------------------ ended is final

  /** What a later world still says of a task that has ended in w: the same end,
      and while the task is stored the same entry; an id never comes back. */
  ghost predicate StaysEnded(w: World, w': World, id: string) {
    && id in w'.minted && id in w.ends
    && id in w'.ends && w'.ends[id] == w.ends[id]
    && (id in w'.store.entries ==> id in w.store.entries && w'.store.entries[id] == w.store.entries[id])
  }

  lemma StaysEndedStep(w: World, a: Action, id: string)
    requires Inv(w) && Enabled(w, a) && id in w.ends
    ensures StaysEnded(w, Do(w, a), id)
  {
    assert !Live(w.store, id);
    match a
    case Complete(x, result) =>
      CompleteSettles(w.store, x, result);
      StaysThroughEnd(w, x, TaskRegions.Complete(w.store, x, result), Done(result), id);
    case Fail(x, message) =>
      FailSettles(w.store, x, message);
      StaysThroughEnd(w, x, TaskRegions.Fail(w.store, x, message), Broke(message), id);
    case Cancel(x) =>
      CancelSettles(w.store, x);
      StaysThroughEnd(w, x, TaskRegions.Cancel(w.store, x), Stopped, id);
    case _ =>
  }

  lemma StaysThroughEnd(w: World, x: string, c: Change, f: Fate, id: string)
    requires EndsKept(w) && Settles(w.store, x, c, f) && id in w.ends && !Live(w.store, id)
    ensures StaysEnded(w, Ended(w, x, c, f), id)
  {
  }

  /** Status, result, error and what wait_result answers never change again, until
      the task is collected; then it stays away. */
  lemma {:induction false} EndedIsFinal(w: World, acts: seq<Action>, id: string)
    requires Inv(w) && Runs(w, acts) && id in w.ends
    ensures StaysEnded(w, End(w, acts), id)
    ensures id in End(w, acts).store.entries ==> WaitResult(End(w, acts).store, id) == WaitResult(w.store, id)
    decreases |acts|
  {
    if acts != [] {
      StaysEndedStep(w, acts[0], id);
      InvStep(w, acts[0]);
      EndedIsFinal(Do(w, acts[0]), acts[1..], id);
    }
    if id in End(w, acts).store.entries {
      assert IsTerminal(w.store.entries[id].task.status);
    }
  }

  /** tasks/result answers with the very JSON the task's own tool returned, if and
      only if that completion came before any failure or cancellation of it. */
  lemma ResultIsTheTools(w: World, id: string, v: Value)
    requires Reachable(w)
    ensures WaitResult(w.store, id) == Result(v) <==>
      id in w.store.entries && id in w.ends && w.ends[id] == Done(v)
    ensures id !in w.store.entries ==> WaitResult(w.store, id) == Error(INVALID_REQUEST)
    ensures id in w.store.entries && id in w.ends && w.ends[id].Broke? ==>
      WaitResult(w.store, id) == Error(INTERNAL_ERROR)
    ensures id in w.store.entries && id in w.ends && w.ends[id].Stopped? ==>
      WaitResult(w.store, id) == Error(INVALID_REQUEST)
    ensures id in w.store.entries && id !in w.ends ==>
      WaitResult(w.store, id) == if w.store.shuttingDown then Error(INTERNAL_ERROR) else TimedOut
  {
    ReachableInv(w);
    if id in w.store.entries {
      assert Coherent(w.store.entries[id]);
      if id in w.ends {
        assert Shows(w.store.entries[id], w.ends[id]);
      } else {
        assert Live(w.store, id);
      }
    }
  }

  // ------------------------------------------------------------ lifetime

  /** What the store, while it has it, still knows of a task's creation. */
  ghost predicate Born(w: World, id: string, ttl: Option<int>, at: int) {
    && id in w.minted
    && (id in w.store.entries ==> w.store.entries[id].task.ttl == ttl && w.store.entries[id].created == at)
  }

  lemma BornStep(w: World, a: Action, id: string, ttl: Option<int>, at: int)
    requires Inv(w) && Enabled(w, a) && Born(w, id, ttl, at)
    ensures Born(Do(w, a), id, ttl, at)
  {
    match a
    case Complete(x, result) =>
      CompleteSettles(w.store, x, result);
      BornThroughEnd(w, x, TaskRegions.Complete(w.store, x, result), Done(result), id, ttl, at);
    case Fail(x, message) =>
      FailSettles(w.store, x, message);
      BornThroughEnd(w, x, TaskRegions.Fail(w.store, x, message), Broke(message), id, ttl, at);
    case Cancel(x) =>
      CancelSettles(w.store, x);
      BornThroughEnd(w, x, TaskRegions.Cancel(w.store, x), Stopped, id, ttl, at);
    case _ =>
  }

  lemma BornThroughEnd(w: World, x: string, c: Change, f: Fate, id: string, ttl: Option<int>, at: int)
    requires Settles(w.store, x, c, f) && Born(w, id, ttl, at)
    ensures Born(Ended(w, x, c, f), id, ttl, at)
  {
  }

  lemma {:induction false} BornRun(w: World, acts: seq<Action>, id: string, ttl: Option<int>, at: int)
    requires Inv(w) && Runs(w, acts) && Born(w, id, ttl, at)
    ensures Inv(End(w, acts)) && Born(End(w, acts), id, ttl, at)
    decreases |acts|
  {
    if acts != [] {
      BornStep(w, acts[0], id, ttl, at);
      InvStep(w, acts[0]);
      BornRun(Do(w, acts[0]), acts[1..], id, ttl, at);
    }
  }

  /** Whatever happens after its creation, a collection removes a stored task if and
      only if it has ended and its ttl, if it was given one, has passed since. */
  lemma Lifetime(w: World, id: string, ttl: Option<int>, acts: seq<Action>)
    requires Inv(w) && id !in w.minted && Runs(DoCreate(w, id, ttl), acts)
    ensures var w' := End(DoCreate(w, id, ttl), acts);
      id in w'.store.entries ==>
        (id !in DoCollect(w').store.entries <==> id in w'.ends && ttl.Some? && w'.now >= w.now + ttl.value)
  {
    InvCreate(w, id, ttl);
    BornRun(DoCreate(w, id, ttl), acts, id, ttl, w.now);
    var w' := End(DoCreate(w, id, ttl), acts);
    CollectExactly(w'.store, w'.now, id);
    if id in w'.store.entries {
      EndedIffTerminal(w', id);
    }
  }

  lemma EndedIffTerminal(w: World, id: string)
    requires Inv(w) && id in w.store.entries
    ensures id in w.ends <==> w.store.entries[id].task.status in {Completed, Failed, Cancelled}
  {
    if id in w.ends {
      assert Shows(w.store.entries[id], w.ends[id]);
    } else {
      assert Live(w.store, id);
    }
  }

  // ------------------------------------------------------- notifications

  predicate Terminal(n: Note) {
    IsTerminal(n.status)
  }

  lemma TwiceCounted(s: seq<Note>, i: nat, j: nat)
    requires i < j < |s| && s[i] == s[j]
    ensures multiset(s)[s[i]] >= 2
  {
    assert s == s[..j] + s[j..];
    assert s[i] in s[..j] && s[j] in s[j..];
    assert multiset(s) == multiset(s[..j]) + multiset(s[j..]);
  }

  /** At most one "working" and at most one terminal notification per task, the
      latter with the status the task keeps; every one is of a real transition. */
  lemma NotesOnce(w: World, i: nat, j: nat)
    requires Reachable(w) && i < j < |w.heard|
    ensures w.heard[i] != w.heard[j]
    ensures Terminal(w.heard[i]) && Terminal(w.heard[j]) ==> w.heard[i].id != w.heard[j].id
    ensures Terminal(w.heard[i]) && w.heard[i].id in w.store.entries ==>
      w.store.entries[w.heard[i].id].task.status == w.heard[i].status
  {
    ReachableInv(w);
    var a, b := w.heard[i], w.heard[j];
    assert Raised(w)[a] == Due(w, a) && Raised(w)[b] == Due(w, b);
    assert Raised(w)[a] >= 1 && Raised(w)[b] >= 1;
    if a == b {
      TwiceCounted(w.heard, i, j);
      assert false;
    }
  }

  /** None is lost: once no listener call is under way, the notifications heard are
      exactly those of the transitions made. */
  lemma NotesAll(w: World, n: Note)
    requires Reachable(w) && w.owed == multiset{}
    ensures n in w.heard <==>
      if n.status.Working? then n.id in w.minted else n.id in w.ends && StatusOf(w.ends[n.id]) == n.status
  {
    ReachableInv(w);
    assert Raised(w)[n] == Due(w, n);
    assert n in w.heard <==> multiset(w.heard)[n] > 0;
  }

  /** A completion or failure is heard only after the "working" of its task. A
      cancellation need not be: the listener runs outside the lock. */
  lemma WorkingFirst(w: World, j: nat)
    requires Reachable(w) && j < |w.heard| && ByWorker(w.heard[j].status)
    ensures exists i :: 0 <= i < j && w.heard[i] == Note(w.heard[j].id, Working)
  {
    ReachableInv(w);
    var first := Note(w.heard[j].id, Working);
    assert first in w.heard[..j];
    var i :| 0 <= i < |w.heard[..j]| && w.heard[..j][i] == first;
    assert w.heard[i] == first;
  }

  lemma CreateOwes(w: World, id: string)
    requires id !in w.minted
    ensures Enabled(w, Create(id, None))
    ensures var w' := Do(w, Create(id, None));
      Live(w'.store, id) && w'.owed == w.owed + multiset{Note(id, Working)} && w'.heard == w.heard
  {
  }

  lemma CancelOwes(w: World, id: string)
    requires Live(w.store, id)
    ensures Enabled(w, Cancel(id))
    ensures var w' := Do(w, Cancel(id));
      w'.owed == w.owed + multiset{Note(id, Cancelled)} && w'.heard == w.heard
  {
    assert TaskRegions.Cancel(w.store, id).note.value.status == Cancelled;
  }

  lemma TellTells(w: World, n: Note)
    requires n in w.owed
    ensures Enabled(w, Tell(n))
    ensures Do(w, Tell(n)).owed == w.owed - multiset{n} && Do(w, Tell(n)).heard == w.heard + [n]
  {
  }

  lemma OweBoth(id: string) returns (acts: seq<Action>)
    ensures Runs(INIT, acts)
    ensures var w := End(INIT, acts); w.owed == multiset{Note(id, Working), Note(id, Cancelled)} && w.heard == []
  {
    var create, cancel := Create(id, None), Cancel(id);
    CreateOwes(INIT, id);
    RunsAppend(INIT, [], create);
    CancelOwes(End(INIT, [] + [create]), id);
    RunsAppend(INIT, [] + [create], cancel);
    acts := [] + [create] + [cancel];
  }

  /** Two owed notes can be heard in either order. */
  lemma TellBoth(acts: seq<Action>, a: Note, b: Note) returns (more: seq<Action>)
    requires Runs(INIT, acts) && a != b && a in End(INIT, acts).owed && b in End(INIT, acts).owed
    ensures Runs(INIT, more) && End(INIT, more).heard == End(INIT, acts).heard + [a, b]
  {
    TellTells(End(INIT, acts), a);
    RunsAppend(INIT, acts, Tell(a));
    TellTells(End(INIT, acts + [Tell(a)]), b);
    RunsAppend(INIT, acts + [Tell(a)], Tell(b));
    more := acts + [Tell(a)] + [Tell(b)];
    assert End(INIT, acts).heard + [a] + [b] == End(INIT, acts).heard + [a, b];
  }

  /** A cancellation is not so ordered: a run that has it heard before "working". */
  lemma CancelMayComeFirst(id: string) returns (acts: seq<Action>)
    ensures Runs(INIT, acts) && End(INIT, acts).heard == [Note(id, Cancelled), Note(id, Working)]
  {
    var both := OweBoth(id);
    acts := TellBoth(both, Note(id, Cancelled), Note(id, Working));
  }

  // ------------------------------------------------------------ shutdown

  lemma FlagStep(w: World, a: Action)
    requires Enabled(w, a)
    ensures Do(w, a).store.shuttingDown <==> w.store.shuttingDown || a.Shutdown?
  {
  }

  /** The store is shutting down if and only if shutdown has begun, and for good. */
  lemma {:induction false} ShutdownStays(w: World, acts: seq<Action>)
    requires Runs(w, acts)
    ensures End(w, acts).store.shuttingDown <==> w.store.shuttingDown || Shutdown in acts
    decreases |acts|
  {
    if acts != [] {
      FlagStep(w, acts[0]);
      ShutdownStays(Do(w, acts[0]), acts[1..]);
      assert acts == [acts[0]] + acts[1..];
    }
  }

  /** When shutdown can return no worker exists, and every stored task is terminal
      if and only if no tools/call handler between create and worker_started holds
      a live one. */
  lemma ShutdownReturns(w: World)
    requires Reachable(w) && w.inflight == 0
    ensures forall id :: id in w.threads ==> w.threads[id].Announcing?
    ensures (forall id :: id in w.store.entries ==> IsTerminal(w.store.entries[id].task.status))
      <==> (forall id :: At(w, id, Announcing) ==> !Live(w.store, id))
  {
    ReachableInv(w);
    assert InFlightIds(w.threads) == {};
    assert forall id :: id in w.threads && !w.threads[id].Announcing? ==> id in InFlightIds(w.threads);
    forall id | id in w.store.entries && !IsTerminal(w.store.entries[id].task.status)
      ensures At(w, id, Announcing) && Live(w.store, id)
    {
    }
  }

  /** A worker that owes the news of its task's end is still counted. */
  ghost predicate WorkersOwe(w: World) {
    forall n :: n in w.owed && ByWorker(n.status) ==> At(w, n.id, Settled)
  }

  lemma WorkersOweStep(w: World, a: Action)
    requires Inv(w) && WorkersOwe(w) && Enabled(w, a)
    ensures WorkersOwe(Do(w, a))
  {
    match a
    case Complete(id, result) => OwesComplete(w, id, result);
    case Fail(id, message) => OwesFail(w, id, message);
    case Cancel(id) => OwesCancel(w, id);
    case _ => OwedLess(w, a);
  }

  lemma OwesComplete(w: World, id: string, result: Value)
    requires WorkersOwe(w)
    ensures WorkersOwe(DoComplete(w, id, result))
  {
  }

  lemma OwesFail(w: World, id: string, message: string)
    requires WorkersOwe(w)
    ensures WorkersOwe(DoFail(w, id, message))
  {
  }

  lemma OwesCancel(w: World, id: string)
    requires WorkersOwe(w) && Sound(w.store)
    ensures WorkersOwe(DoCancel(w, id))
  {
    CancelSettles(w.store, id);
  }

  lemma OwedLess(w: World, a: Action)
    requires Inv(w) && WorkersOwe(w) && Enabled(w, a) && !a.Complete? && !a.Fail? && !a.Cancel?
    ensures WorkersOwe(Do(w, a))
  {
    forall n | n in Do(w, a).owed && ByWorker(n.status) ensures n in w.owed && At(Do(w, a), n.id, Settled) {
      assert n in w.owed;
    }
  }

  lemma {:induction false} WorkersOweRun(w: World, acts: seq<Action>)
    requires Inv(w) && WorkersOwe(w) && Runs(w, acts)
    ensures WorkersOwe(End(w, acts))
    decreases |acts|
  {
    if acts != [] {
      InvStep(w, acts[0]);
      WorkersOweStep(w, acts[0]);
      WorkersOweRun(Do(w, acts[0]), acts[1..]);
    }
  }

  /** When shutdown can return, every end a worker gave its task has been heard. */
  lemma ShutdownTells(acts: seq<Action>, n: Note)
    requires Runs(INIT, acts) && End(INIT, acts).inflight == 0
    ensures n.status.Completed? || n.status.Failed? ==> n !in End(INIT, acts).owed
  {
    InvInit();
    InvRun(INIT, acts);
    WorkersOweRun(INIT, acts);
    var w := End(INIT, acts);
    assert InFlightIds(w.threads) == {};
    assert forall id :: id in w.threads && !w.threads[id].Announcing? ==> id in InFlightIds(w.threads);
  }

  /** The exception is real: a handler that has created its task and not yet
      counted its worker lets shutdown return over a working task. */
  lemma ShutdownMayLeave(id: string)
    ensures exists w :: Reachable(w) && w.store.shuttingDown && w.inflight == 0 && Live(w.store, id)
  {
    InitReachable();
    StepReachable(INIT, Create(id, None));
    var w1 := DoCreate(INIT, id, None);
    StepReachable(w1, Shutdown);
    assert Live(DoShutdown(w1).store, id);
  }

  // -------------------------------------------------------------- paging

  datatype Phase = Fetching | Finished | Refused

  /** A client following tasks/list cursors. */
  datatype Client = Client(cursor: Option<string>, got: seq<Task>, phase: Phase)

  datatype Move = Step(action: Action) | Fetch

  const NEW_CLIENT := Client(None, [], Fetching)

  function Fetched(c: Client, st: Store, pageSize: nat): Client {
    match List(st, c.cursor, pageSize)
    case Tasks(tasks, next) => Client(next, c.got + tasks, if next.Some? then Fetching else Finished)
    case BadCursor => c.(phase := Refused)
    case Overflow => c.(phase := Refused)
  }

  /** A legal move that collects nothing. */
  predicate CanMove(w: World, c: Client, m: Move) {
    match m
    case Step(a) => Enabled(w, a) && !a.Collect?
    case Fetch => c.phase.Fetching?
  }

  function MoveWorld(w: World, m: Move): World {
    if m.Step? then Do(w, m.action) else w
  }

  function MoveClient(w: World, c: Client, m: Move, pageSize: nat): Client {
    if m.Fetch? then Fetched(c, w.store, pageSize) else c
  }

  /** The world and the client after a run of moves. */
  predicate Leads(w: World, c: Client, moves: seq<Move>, pageSize: nat, w': World, c': Client)
    decreases |moves|
  {
    if moves == [] then w' == w && c' == c
    else
      && CanMove(w, c, moves[0])
      && Leads(MoveWorld(w, moves[0]), MoveClient(w, c, moves[0], pageSize), moves[1..], pageSize, w', c')
  }

  /** The tasks got are the first of the order, in order. */
  predicate GotPrefix(c: Client, order: seq<string>) {
    |c.got| <= |order| && forall i :: 0 <= i < |c.got| ==> c.got[i].id == order[i]
  }

  /** Between fetches the cursor stands where the pages so far end; a finished
      client has been given all that was there at the start. */
  ghost predicate PagingOver(start: seq<string>, order: seq<string>, c: Client) {
    && start <= order
    && GotPrefix(c, order)
    && !c.phase.Refused?
    && (c.phase.Fetching? ==> Offset(c.cursor) == Some(|c.got|))
    && (c.phase.Finished? ==> |start| <= |c.got|)
  }

  ghost predicate Paging(start: seq<string>, w: World, c: Client) {
    PagingOver(start, w.store.order, c)
  }

  /** A page inside the order is the tasks of its slice, and the cursor to go on. */
  lemma FetchPage(st: Store, c: Client, k: nat, pageSize: nat)
    requires Sound(st) && Offset(c.cursor) == Some(k) && k < |st.order| && |st.order| + pageSize < TWO_64
    ensures var end := PageEnd(|st.order|, k, pageSize); var c' := Fetched(c, st, pageSize);
      && k <= end <= |st.order|
      && c'.got == c.got + TasksOf(st, st.order[k..end])
      && c'.phase == (if end < |st.order| then Fetching else Finished)
      && (end < |st.order| ==> Offset(c'.cursor) == Some(end))
  {
    var end := PageEnd(|st.order|, k, pageSize);
    assert pageSize > 0 ==> Sum64(k, pageSize) == k + pageSize;
    PrintedCursor(end);
  }

  lemma GotMore(c: Client, c': Client, order: seq<string>, more: seq<Task>)
    requires GotPrefix(c, order) && c'.got == c.got + more && |c.got| + |more| <= |order|
    requires forall i :: 0 <= i < |more| ==> more[i].id == order[|c.got| + i]
    ensures GotPrefix(c', order)
  {
    forall i | 0 <= i < |c'.got| ensures c'.got[i].id == order[i] {
      if i >= |c.got| {
        assert c'.got[i] == more[i - |c.got|];
      }
    }
  }

  /** What one page more does to a client inside the order. */
  lemma PagedOn(start: seq<string>, order: seq<string>, c: Client, c': Client, more: seq<Task>)
    requires PagingOver(start, order, c) && |c.got| + |more| <= |order| && c'.got == c.got + more
    requires forall i :: 0 <= i < |more| ==> more[i].id == order[|c.got| + i]
    requires c'.phase == if |c.got| + |more| < |order| then Fetching else Finished
    requires c'.phase.Fetching? ==> Offset(c'.cursor) == Some(|c.got| + |more|)
    ensures PagingOver(start, order, c')
  {
    GotMore(c, c', order, more);
  }

  /** A fetch from inside the order. */
  lemma FetchInside(start: seq<string>, st: Store, c: Client, pageSize: nat)
    requires Sound(st) && PagingOver(start, st.order, c) && c.phase.Fetching?
    requires |c.got| < |st.order| && |st.order| + pageSize < TWO_64
    ensures PagingOver(start, st.order, Fetched(c, st, pageSize))
  {
    var k := |c.got|;
    var end := PageEnd(|st.order|, k, pageSize);
    FetchPage(st, c, k, pageSize);
    SliceTasks(st, k, end);
    PagedOn(start, st.order, c, Fetched(c, st, pageSize), TasksOf(st, st.order[k..end]));
  }

  /** A fetch from its end: an empty last page. */
  lemma FetchPast(start: seq<string>, st: Store, c: Client, pageSize: nat)
    requires PagingOver(start, st.order, c) && c.phase.Fetching? && |c.got| == |st.order|
    ensures PagingOver(start, st.order, Fetched(c, st, pageSize))
  {
    assert c.got + [] == c.got;
    assert Fetched(c, st, pageSize) == Client(None, c.got, Finished);
  }

  lemma FetchPaging(start: seq<string>, w: World, c: Client, pageSize: nat)
    requires Sound(w.store) && Paging(start, w, c) && c.phase.Fetching?
    requires |w.store.order| + pageSize < TWO_64
    ensures Paging(start, w, Fetched(c, w.store, pageSize))
  {
    if |c.got| < |w.store.order| {
      FetchInside(start, w.store, c, pageSize);
    } else {
      FetchPast(start, w.store, c, pageSize);
    }
  }

  /** Every move but a collection only appends to the order. */
  lemma OrderGrows(w: World, a: Action)
    requires Enabled(w, a) && !a.Collect?
    ensures w.store.order <= Do(w, a).store.order
  {
    match a
    case Complete(id, result) => assert TaskRegions.Complete(w.store, id, result).store.order == w.store.order;
    case Fail(id, message) => assert TaskRegions.Fail(w.store, id, message).store.order == w.store.order;
    case Cancel(id) => assert TaskRegions.Cancel(w.store, id).store.order == w.store.order;
    case _ =>
  }

  lemma {:induction false} LeadsGrows(w: World, c: Client, moves: seq<Move>, pageSize: nat, w': World, c': Client)
    requires Leads(w, c, moves, pageSize, w', c')
    ensures w.store.order <= w'.store.order
    decreases |moves|
  {
    if moves != [] {
      if moves[0].Step? {
        OrderGrows(w, moves[0].action);
      }
      LeadsGrows(MoveWorld(w, moves[0]), MoveClient(w, c, moves[0], pageSize), moves[1..], pageSize, w', c');
    }
  }

  lemma {:induction false} LeadsPaging(start: seq<string>, w: World, c: Client, moves: seq<Move>, pageSize: nat,
                                       w': World, c': Client)
    requires Inv(w) && Paging(start, w, c) && Leads(w, c, moves, pageSize, w', c')
    requires |w'.store.order| + pageSize < TWO_64
    ensures Inv(w') && Paging(start, w', c')
    decreases |moves|
  {
    if moves != [] {
      var m := moves[0];
      LeadsGrows(w, c, moves, pageSize, w', c');
      if m.Step? {
        InvStep(w, m.action);
        OrderGrows(w, m.action);
      } else {
        FetchPaging(start, w, c, pageSize);
      }
      LeadsPaging(start, MoveWorld(w, m), MoveClient(w, c, m, pageSize), moves[1..], pageSize, w', c');
    }
  }

  /** Whatever the page size, 0 for all at once, and whatever else happens between
      the calls, collection apart, the pages make a
      prefix of the final order without repetition; when the cursors run out it
      holds each task present at the start once, in creation order. */
  lemma PagingAcrossChanges(w: World, moves: seq<Move>, pageSize: nat, w': World, c': Client)
    requires Inv(w) && Leads(w, NEW_CLIENT, moves, pageSize, w', c')
    requires |w'.store.order| + pageSize < TWO_64
    ensures !c'.phase.Refused?
    ensures GotPrefix(c', w'.store.order)
    ensures forall i, j :: 0 <= i < j < |c'.got| ==> c'.got[i].id != c'.got[j].id
    ensures c'.phase.Finished? ==> |w.store.order| <= |c'.got|
    ensures forall i :: 0 <= i < |w.store.order| && i < |c'.got| ==> c'.got[i].id == w.store.order[i]
  {
    LeadsPaging(w.store.order, w, NEW_CLIENT, moves, pageSize, w', c');
  }

  // ---------------------------------------------- paging and collection

  lemma {:induction false} WithoutSplit(a: seq<string>, b: seq<string>, gone: set<string>)
    ensures Without(a + b, gone) == Without(a, gone) + Without(b, gone)
  {
    if b == [] {
      assert a + b == a;
    } else {
      var front, last := b[..|b| - 1], b[|b| - 1];
      assert (a + b)[..|a + b| - 1] == a + front;
      WithoutSplit(a, front, gone);
    }
  }

  predicate NoneOf(order: seq<string>, gone: set<string>) {
    forall id :: id in order ==> id !in gone
  }

  lemma {:induction false} WithoutLength(order: seq<string>, gone: set<string>)
    ensures |Without(order, gone)| <= |order|
    ensures |Without(order, gone)| == |order| <==> NoneOf(order, gone)
  {
    if order != [] {
      var front, last := order[..|order| - 1], order[|order| - 1];
      WithoutLength(front, gone);
      assert order == front + [last];
    }
  }

  function From(order: seq<string>, k: nat): seq<string> {
    if k >= |order| then [] else order[k..]
  }

  /** A collection under a client that has been given the first k tasks: the rest
      of its walk is exactly the survivors it has not seen, if and only if none of
      those k was collected, or no survivor is left to see. */
  lemma CollectionSkips(st: Store, now: int, k: nat)
    requires k <= |st.order|
    ensures (From(TaskRegions.Collect(st, now).order, k) == Without(st.order[k..], ExpiredIds(st, now)))
      <==> (NoneOf(st.order[..k], ExpiredIds(st, now)) || Without(st.order[k..], ExpiredIds(st, now)) == [])
  {
    var gone := ExpiredIds(st, now);
    var a, b := st.order[..k], st.order[k..];
    assert st.order == a + b;
    WithoutSplit(a, b, gone);
    WithoutLength(a, gone);
    var all := Without(a, gone) + Without(b, gone);
    if |Without(a, gone)| == k {
      assert From(all, k) == Without(b, gone);
    } else if Without(b, gone) != [] {
      assert |From(all, k)| < |Without(b, gone)|;
    }
  }
}
