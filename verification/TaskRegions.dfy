// detail::TaskStore of src/server.cpp: what each of its lock regions does.
// Timestamps and id minting are not part of this model; ids are given fresh.
module TaskRegions {
  import opened Wrappers
  import opened Json
  import opened Decimal
  import opened Pagination

  datatype Status = Working | InputRequired | Completed | Failed | Cancelled

  datatype Task = Task(id: string, status: Status, message: Option<string>, ttl: Option<int>)

  datatype Entry = Entry(task: Task, result: Option<Value>, error: Option<string>, cancelled: bool, created: int)

  datatype Store = Store(entries: map<string, Entry>, order: seq<string>, shuttingDown: bool)

  /** The store after a region, and the projection its listener is then given. */
  datatype Change = Change(store: Store, note: Option<Task>)

  const EMPTY := Store(map[], [], false)

  predicate IsTerminal(s: Status) {
    s.Completed? || s.Failed? || s.Cancelled?
  }

  /** touch_locked: the message is replaced only by a message. */
  function Touch(e: Entry, status: Status, message: Option<string>): Entry {
    e.(task := e.task.(status := status, message := if message.Some? then message else e.task.message))
  }

  function Put(st: Store, id: string, e: Entry): Change {
    Change(st.(entries := st.entries[id := e]), Some(e.task))
  }

  function Create(st: Store, id: string, ttl: Option<int>, now: int): Change {
    var e := Entry(Task(id, Working, None, ttl), None, None, false, now);
    Change(Store(st.entries[id := e], st.order + [id], st.shuttingDown), Some(e.task))
  }

  /** Absent and terminal tasks are left alone, without a notification. */
  predicate Live(st: Store, id: string) {
    id in st.entries && !IsTerminal(st.entries[id].task.status)
  }

  function CompleteEntry(e: Entry, result: Value): Entry {
    if e.cancelled then Touch(e, Cancelled, Some("cancelled"))
    else Touch(e.(result := Some(result)), Completed, None)
  }

  function Complete(st: Store, id: string, result: Value): Change {
    if Live(st, id) then Put(st, id, CompleteEntry(st.entries[id], result)) else Change(st, None)
  }

  function Fail(st: Store, id: string, message: string): Change {
    if Live(st, id) then Put(st, id, Touch(st.entries[id].(error := Some(message)), Failed, Some(message)))
    else Change(st, None)
  }

  function Cancel(st: Store, id: string): Change {
    if Live(st, id) then Put(st, id, Touch(st.entries[id].(cancelled := true), Cancelled, Some("cancelled")))
    else Change(st, None)
  }

  /** A terminal task whose age has reached its ttl. */
  predicate Expired(e: Entry, now: int) {
    IsTerminal(e.task.status) && e.task.ttl.Some? && now - e.created >= e.task.ttl.value
  }

  function ExpiredIds(st: Store, now: int): set<string> {
    set id | id in st.entries && Expired(st.entries[id], now)
  }

  function Without(order: seq<string>, gone: set<string>): seq<string> {
    if order == [] then []
    else if order[|order| - 1] in gone then Without(order[..|order| - 1], gone)
    else Without(order[..|order| - 1], gone) + [order[|order| - 1]]
  }

  function Drop(st: Store, gone: set<string>): Store {
    Store(st.entries - gone, Without(st.order, gone), st.shuttingDown)
  }

  function Collect(st: Store, now: int): Store {
    Drop(st, ExpiredIds(st, now))
  }

  // ---------------------------------------------------------------- list

  datatype Listed =
    | Tasks(tasks: seq<Task>, next: Option<string>)
    | BadCursor
    | Overflow

  /** The cursor of list: digits of any number, whose value fits 64 bits. */
  function Offset(cursor: Option<string>): Option<nat> {
    if cursor.None? || cursor.value == "" then Some(0)
    else if AllDigits(cursor.value) && NumberOf(cursor.value) < TWO_64 then Some(NumberOf(cursor.value))
    else None
  }

  /** Where a page ends; a sum that wraps may end it before it begins. */
  function PageEnd(size: nat, offset: nat, pageSize: nat): nat {
    if pageSize == 0 || Sum64(offset, pageSize) > size then size else Sum64(offset, pageSize)
  }

  function TasksOf(st: Store, ids: seq<string>): seq<Task> {
    if ids == [] then []
    else
      var front, last := ids[..|ids| - 1], ids[|ids| - 1];
      TasksOf(st, front) + if last in st.entries then [st.entries[last].task] else []
  }

  function List(st: Store, cursor: Option<string>, pageSize: nat): Listed {
    var offset := Offset(cursor);
    if offset.None? then BadCursor
    else if offset.value >= |st.order| then Tasks([], None)
    else
      var end := PageEnd(|st.order|, offset.value, pageSize);
      if end < offset.value then Overflow
      else Tasks(TasksOf(st, st.order[offset.value..end]), if end < |st.order| then Some(ToString(end)) else None)
  }

  /** How long a page is, and when there is another: in a sound store whose size and
      page size together stay within 64 bits, a page from inside the order holds as
      many tasks as it may and there are, or for a page size of 0 all the rest. */
  lemma PageLength(st: Store, cursor: Option<string>, offset: nat, pageSize: nat)
    requires Sound(st) && Offset(cursor) == Some(offset)
    requires offset < |st.order| && |st.order| + pageSize < TWO_64
    ensures var page, left := List(st, cursor, pageSize), |st.order| - offset;
      && page.Tasks?
      && |page.tasks| == (if pageSize == 0 || left < pageSize then left else pageSize)
      && (forall i :: 0 <= i < |page.tasks| ==> page.tasks[i].id == st.order[offset + i])
      && (page.next.Some? <==> 0 < pageSize < left)
      && (page.next.Some? ==> Offset(page.next) == Some(offset + pageSize))
  {
    var end := PageEnd(|st.order|, offset, pageSize);
    PageEndInside(|st.order|, offset, pageSize);
    SliceTasks(st, offset, end);
    PrintedCursor(end);
  }

  lemma PageEndInside(size: nat, offset: nat, pageSize: nat)
    requires offset < size && size + pageSize < TWO_64
    ensures PageEnd(size, offset, pageSize) ==
      if pageSize == 0 || size - offset < pageSize then size else offset + pageSize
  {
    assert offset + pageSize < TWO_64;
  }

  /** From the end on a page is empty and the last. */
  lemma PagePast(st: Store, cursor: Option<string>, offset: nat, pageSize: nat)
    requires Offset(cursor) == Some(offset) && offset >= |st.order|
    ensures List(st, cursor, pageSize) == Tasks([], None)
  {
  }

  lemma {:induction false} TasksOfAll(st: Store, ids: seq<string>)
    requires Indexed(st) && forall i :: 0 <= i < |ids| ==> ids[i] in st.entries
    ensures |TasksOf(st, ids)| == |ids|
    ensures forall i :: 0 <= i < |ids| ==> TasksOf(st, ids)[i] == st.entries[ids[i]].task
  {
    if ids != [] {
      TasksOfAll(st, ids[..|ids| - 1]);
    }
  }

  lemma SliceTasks(st: Store, k: nat, end: nat)
    requires Sound(st) && k <= end <= |st.order|
    ensures |TasksOf(st, st.order[k..end])| == end - k
    ensures forall i :: 0 <= i < end - k ==> TasksOf(st, st.order[k..end])[i].id == st.order[k + i]
  {
    var page := st.order[k..end];
    forall i | 0 <= i < |page| ensures page[i] in st.entries {
      assert page[i] == st.order[k + i];
    }
    TasksOfAll(st, page);
  }

  /** A cursor is refused exactly when it is not a number of at most 64 bits; zeros
      in front and the empty cursor are accepted, unlike twenty-one digits by the
      other lists. */
  lemma CursorLaw(s: string)
    ensures Offset(None) == Some(0) && Offset(Some("")) == Some(0)
    ensures (exists i :: 0 <= i < |s| && !('0' <= s[i] <= '9')) ==> Offset(Some(s)) == None
    ensures s != "" && AllDigits(s) ==>
      && Offset(Some(s)) == (if NumberOf(s) < TWO_64 then Some(NumberOf(s)) else None)
      && Offset(Some("0" + s)) == Offset(Some(s))
  {
    if s != "" && AllDigits(s) {
      ZeroInFront(s);
    }
  }

  lemma {:induction false} ZeroInFront(s: string)
    requires AllDigits(s)
    ensures AllDigits("0" + s) && NumberOf("0" + s) == NumberOf(s)
  {
    var zero := "0";
    if s == "" {
      assert zero + s == zero && zero[..0] == "";
    } else {
      ZeroInFront(s[..|s| - 1]);
      assert (zero + s)[..|s|] == zero + s[..|s| - 1];
    }
  }

  // ---------------------------------------------------------- wait_result

  datatype Waited = Result(value: Value) | TimedOut | Error(code: int)

  /** What wait_result returns once it stops waiting. */
  function WaitResult(st: Store, id: string): Waited {
    if id !in st.entries then Error(INVALID_REQUEST)
    else if !IsTerminal(st.entries[id].task.status) && !st.shuttingDown then TimedOut
    else match st.entries[id].task.status
      case Completed =>
        if st.entries[id].result.Some? then Result(st.entries[id].result.value) else Error(INTERNAL_ERROR)
      case Failed => Error(INTERNAL_ERROR)
      case Cancelled => Error(INVALID_REQUEST)
      case _ => Error(INTERNAL_ERROR)
  }

  // --------------------------------------------------------- well-formed

  predicate Distinct(order: seq<string>) {
    forall i, j :: 0 <= i < j < |order| ==> order[i] != order[j]
  }

  /** order_ lists exactly the keys of entries_, once each. */
  ghost predicate Indexed(st: Store) {
    && Distinct(st.order)
    && (forall id :: id in st.entries <==> id in st.order)
    && (forall id :: id in st.entries ==> st.entries[id].task.id == id)
  }

  /** Status, result, error and flag agree. */
  predicate Coherent(e: Entry) {
    && !e.task.status.InputRequired?
    && (e.task.status.Completed? <==> e.result.Some?)
    && (e.task.status.Failed? <==> e.error.Some?)
    && (e.task.status.Cancelled? <==> e.cancelled)
  }

  ghost predicate Sound(st: Store) {
    Indexed(st) && forall id :: id in st.entries ==> Coherent(st.entries[id])
  }

  lemma {:induction false} WithoutMembers(order: seq<string>, gone: set<string>)
    ensures forall id :: id in Without(order, gone) <==> id in order && id !in gone
  {
    if order != [] {
      var front, last := order[..|order| - 1], order[|order| - 1];
      WithoutMembers(front, gone);
      assert order == front + [last];
    }
  }

  lemma {:induction false} WithoutDistinct(order: seq<string>, gone: set<string>)
    requires Distinct(order)
    ensures Distinct(Without(order, gone))
  {
    if order != [] {
      var front, last := order[..|order| - 1], order[|order| - 1];
      WithoutDistinct(front, gone);
      WithoutMembers(front, gone);
      assert last !in front;
    }
  }

  /** a stands somewhere before b. */
  ghost predicate Before(order: seq<string>, a: string, b: string) {
    exists j :: 0 <= j < |order| && order[j] == b && a in order[..j]
  }

  lemma BeforeAppend(order: seq<string>, last: string, a: string, b: string)
    ensures Before(order + [last], a, b) <==> Before(order, a, b) || (last == b && a in order)
  {
    var all := order + [last];
    assert all[..|order|] == order && all[|order|] == last;
    assert forall j :: 0 <= j < |order| ==> all[..j] == order[..j] && all[j] == order[j];
  }

  /** The survivors keep their order, and only they are left. */
  lemma {:induction false} WithoutKeepsOrder(order: seq<string>, gone: set<string>, a: string, b: string)
    ensures Before(Without(order, gone), a, b) <==> Before(order, a, b) && a !in gone && b !in gone
  {
    if order != [] {
      var front, last := order[..|order| - 1], order[|order| - 1];
      assert order == front + [last];
      WithoutKeepsOrder(front, gone, a, b);
      WithoutMembers(front, gone);
      BeforeAppend(front, last, a, b);
      BeforeAppend(Without(front, gone), last, a, b);
    }
  }

  /** Ended, and at least as old as its ttl; a task without one never is. */
  predicate PastTtl(e: Entry, now: int) {
    && (e.task.status.Completed? || e.task.status.Failed? || e.task.status.Cancelled?)
    && e.task.ttl.Some?
    && now >= e.created + e.task.ttl.value
  }

  /** gc_expired removes exactly the terminal tasks whose age has reached their
      ttl, from the map and from the order alike, and leaves the rest as it was. */
  lemma CollectExactly(st: Store, now: int, id: string)
    requires Sound(st)
    ensures var st' := Collect(st, now);
      && (id in st'.entries <==> id in st.entries && !PastTtl(st.entries[id], now))
      && (id in st'.order <==> id in st'.entries)
      && (id in st'.entries ==> st'.entries[id] == st.entries[id])
      && forall x :: Before(st'.order, x, id) <==> Before(st.order, x, id) && x in st'.entries && id in st'.entries
  {
    CollectSound(st, now);
    forall x ensures Before(Collect(st, now).order, x, id) <==>
        Before(st.order, x, id) && x in Collect(st, now).entries && id in Collect(st, now).entries {
      WithoutKeepsOrder(st.order, ExpiredIds(st, now), x, id);
    }
  }

  lemma CreateSound(st: Store, id: string, ttl: Option<int>, now: int)
    requires Sound(st) && id !in st.entries
    ensures Sound(Create(st, id, ttl, now).store)
    ensures var c := Create(st, id, ttl, now); var e := c.store.entries[id];
      && e.task == Task(id, Working, None, ttl) && e.created == now
      && c.note == Some(e.task)
      && (forall x :: x in st.entries ==> c.store.entries[x] == st.entries[x])
      && c.store.order == st.order + [id]
  {
    var st' := Create(st, id, ttl, now).store;
    assert id !in st.order;
    assert st'.order[|st.order|] == id;
  }

  lemma CollectSound(st: Store, now: int)
    requires Sound(st)
    ensures Sound(Collect(st, now))
  {
    WithoutMembers(st.order, ExpiredIds(st, now));
    WithoutDistinct(st.order, ExpiredIds(st, now));
  }

  lemma PutSound(st: Store, id: string, e: Entry)
    requires Sound(st) && id in st.entries && e.task.id == id && Coherent(e)
    ensures Sound(Put(st, id, e).store)
  {
    var st' := Put(st, id, e).store;
    assert Indexed(st') by {
      assert st'.order == st.order;
      assert forall x :: x in st'.entries <==> x in st.entries;
    }
  }

  /** The cancelled flag never diverts the completion of a live task, and a
      completion always carries its result. */
  lemma CompleteSound(st: Store, id: string, result: Value)
    requires Sound(st)
    ensures Sound(Complete(st, id, result).store)
    ensures !Live(st, id) ==> Complete(st, id, result) == Change(st, None)
    ensures Live(st, id) ==>
      && Complete(st, id, result).store.entries[id].task == st.entries[id].task.(status := Completed)
      && Complete(st, id, result).note == Some(st.entries[id].task.(status := Completed))
    ensures WaitResult(Complete(st, id, result).store, id)
         == if Live(st, id) then Result(result) else WaitResult(st, id)
  {
    if Live(st, id) {
      assert Coherent(st.entries[id]);
      PutSound(st, id, CompleteEntry(st.entries[id], result));
    }
  }

  lemma FailSound(st: Store, id: string, message: string)
    requires Sound(st)
    ensures Sound(Fail(st, id, message).store)
    ensures if Live(st, id) then
        && Fail(st, id, message).store.entries[id].error == Some(message)
        && Fail(st, id, message).store.entries[id].task ==
             st.entries[id].task.(status := Failed, message := Some(message))
      else Fail(st, id, message) == Change(st, None)
  {
    if Live(st, id) {
      assert Coherent(st.entries[id]);
      PutSound(st, id, Touch(st.entries[id].(error := Some(message)), Failed, Some(message)));
    }
  }

  lemma CancelSound(st: Store, id: string)
    requires Sound(st)
    ensures Sound(Cancel(st, id).store)
    ensures if Live(st, id) then
        && Cancel(st, id).store.entries[id].cancelled
        && Cancel(st, id).store.entries[id].task ==
             st.entries[id].task.(status := Cancelled, message := Some("cancelled"))
      else Cancel(st, id) == Change(st, None)
  {
    if Live(st, id) {
      assert Coherent(st.entries[id]);
      PutSound(st, id, Touch(st.entries[id].(cancelled := true), Cancelled, Some("cancelled")));
    }
  }

  /** In a sound store the "completed without a result" error cannot be met. */
  lemma CompletedHasResult(st: Store, id: string)
    requires Sound(st)
    ensures id in st.entries && st.entries[id].task.status.Completed? ==> WaitResult(st, id).Result?
  {
    if id in st.entries {
      assert Coherent(st.entries[id]);
    }
  }
}
