// The TaskStore object: its fields, and the code that runs under mu_.
module TaskStoreObject {
  import opened Wrappers
  import opened Json
  import opened Decimal
  import opened TaskRegions

  /** The erase-remove idiom of gc_expired. */
  method Erase(order: seq<string>, id: string) returns (rest: seq<string>)
    ensures rest == Without(order, {id})
  {
    rest := [];
    for i := 0 to |order|
      invariant rest == Without(order[..i], {id})
    {
      assert order[..i + 1][..i] == order[..i];
      if order[i] != id {
        rest := rest + [order[i]];
      }
    }
    assert order[..|order|] == order;
  }

  lemma {:induction false} WithoutTwice(order: seq<string>, a: set<string>, b: set<string>)
    ensures Without(Without(order, a), b) == Without(order, a + b)
  {
    if order != [] {
      var front, last := order[..|order| - 1], order[|order| - 1];
      WithoutTwice(front, a, b);
      if last !in a {
        var once := Without(order, a);
        assert once == Without(front, a) + [last];
        assert once[..|once| - 1] == Without(front, a);
      }
    }
  }

  lemma {:induction false} WithoutNone(order: seq<string>)
    ensures Without(order, {}) == order
  {
    if order != [] {
      WithoutNone(order[..|order| - 1]);
    }
  }

  /** The store when the loop of gc_expired has still todo to look at. */
  function Swept(st: Store, now: int, todo: set<string>): (Store, nat) {
    (Drop(st, ExpiredIds(st, now) - todo), |ExpiredIds(st, now) - todo|)
  }

  lemma NoneSwept(st: Store, now: int)
    ensures Swept(st, now, st.entries.Keys) == (st, 0)
    ensures Swept(st, now, {}) == (Collect(st, now), |ExpiredIds(st, now)|)
  {
    WithoutNone(st.order);
    assert ExpiredIds(st, now) - st.entries.Keys == {};
    assert st.entries - {} == st.entries;
    assert ExpiredIds(st, now) - {} == ExpiredIds(st, now);
  }

  /** One turn of that loop: id leaves todo, dropped or kept. */
  lemma DropOne(st: Store, now: int, todo: set<string>, id: string)
    requires id in todo && id in st.entries
    ensures id in Swept(st, now, todo).0.entries && Swept(st, now, todo).0.entries[id] == st.entries[id]
    ensures Swept(st, now, todo - {id}) ==
      var (before, n) := Swept(st, now, todo);
      if Expired(st.entries[id], now)
      then (Store(before.entries - {id}, Without(before.order, {id}), before.shuttingDown), n + 1)
      else (before, n)
  {
    var gone := ExpiredIds(st, now) - todo;
    if Expired(st.entries[id], now) {
      assert ExpiredIds(st, now) - (todo - {id}) == gone + {id};
      WithoutTwice(st.order, gone, {id});
      assert st.entries - gone - {id} == st.entries - (gone + {id});
    } else {
      assert ExpiredIds(st, now) - (todo - {id}) == gone;
    }
  }

  /** std::stoull on a string of digits: out of range is the only failure. */
  method ParseOffset(s: string) returns (r: Option<nat>)
    requires s != ""
    ensures r == Offset(Some(s))
  {
    var value := 0;
    for i := 0 to |s|
      invariant AllDigits(s[..i]) && value == NumberOf(s[..i])
    {
      if s[i] < '0' || s[i] > '9' {
        return None;
      }
      assert s[..i + 1][..i] == s[..i];
      value := value * 10 + DigitValue(s[i]);
    }
    assert s[..|s|] == s;
    r := if value < TWO_64 then Some(value) else None;
  }

  /** One turn of the loop of list: the slice grows by one id. */
  lemma PageStep(st: Store, offset: nat, i: nat)
    requires offset <= i < |st.order|
    ensures TasksOf(st, st.order[offset..i + 1]) == TasksOf(st, st.order[offset..i])
      + if st.order[i] in st.entries then [st.entries[st.order[i]].task] else []
  {
    var ids := st.order[offset..i + 1];
    assert ids[..|ids| - 1] == st.order[offset..i] && ids[|ids| - 1] == st.order[i];
  }

  class TaskStore {
    var entries: map<string, Entry>
    var order: seq<string>
    var shuttingDown: bool

    function View(): Store
      reads this
    {
      Store(entries, order, shuttingDown)
    }

    constructor ()
      ensures View() == EMPTY
    {
      entries, order, shuttingDown := map[], [], false;
    }

    method Create(id: string, ttl: Option<int>, now: int) returns (projection: Task)
      modifies this
      ensures Change(View(), Some(projection)) == TaskRegions.Create(old(View()), id, ttl, now)
    {
      projection := Task(id, Working, None, ttl);
      order := order + [id];
      entries := entries[id := Entry(projection, None, None, false, now)];
    }

    /** The projection its listener is to be given, if any. */
    method Complete(id: string, result: Value) returns (note: Option<Task>)
      modifies this
      ensures Change(View(), note) == TaskRegions.Complete(old(View()), id, result)
    {
      if id !in entries {
        return None;
      }
      var e := entries[id];
      if IsTerminal(e.task.status) {
        return None;
      }
      if e.cancelled {
        e := Touch(e, Cancelled, Some("cancelled"));
      } else {
        e := Touch(e.(result := Some(result)), Completed, None);
      }
      entries := entries[id := e];
      note := Some(e.task);
    }

    method Fail(id: string, message: string) returns (note: Option<Task>)
      modifies this
      ensures Change(View(), note) == TaskRegions.Fail(old(View()), id, message)
    {
      if id !in entries {
        return None;
      }
      var e := entries[id];
      if IsTerminal(e.task.status) {
        return None;
      }
      e := Touch(e.(error := Some(message)), Failed, Some(message));
      entries := entries[id := e];
      note := Some(e.task);
    }

    /** What cancel returns, and whether it fires the listener with it. */
    method Cancel(id: string) returns (projection: Option<Task>, fire: bool)
      modifies this
      ensures Change(View(), if fire then projection else None) == TaskRegions.Cancel(old(View()), id)
      ensures projection.Some? <==> id in old(entries)
      ensures projection.Some? ==> projection.value == entries[id].task
    {
      if id !in entries {
        return None, false;
      }
      var e := entries[id];
      if IsTerminal(e.task.status) {
        fire := false;
      } else {
        e := Touch(e.(cancelled := true), Cancelled, Some("cancelled"));
        entries := entries[id := e];
        fire := true;
      }
      projection := Some(e.task);
    }

    /** The body of the loop of gc_expired, for one entry. */
    method DropIfExpired(id: string, now: int) returns (dropped: nat)
      requires id in entries
      modifies this
      ensures if Expired(old(entries)[id], now)
        then dropped == 1 && View() == Store(old(entries) - {id}, Without(old(order), {id}), old(shuttingDown))
        else dropped == 0 && View() == old(View())
    {
      var e := entries[id];
      dropped := 0;
      if IsTerminal(e.task.status) && e.task.ttl.Some? && now - e.created >= e.task.ttl.value {
        order := Erase(order, id);
        entries := entries - {id};
        dropped := 1;
      }
    }

    /** gc_expired: any order over the map gives the same store. */
    method GcExpired(now: int) returns (removed: nat)
      modifies this
      ensures View() == Collect(old(View()), now)
      ensures removed == |ExpiredIds(old(View()), now)|
    {
      ghost var before := View();
      NoneSwept(before, now);
      removed := 0;
      var todo := entries.Keys;
      while todo != {}
        invariant todo <= before.entries.Keys
        invariant (View(), removed) == Swept(before, now, todo)
        decreases todo
      {
        var id :| id in todo;
        DropOne(before, now, todo, id);
        var dropped := DropIfExpired(id, now);
        removed := removed + dropped;
        todo := todo - {id};
      }
    }

    /** The loop of list over one page. */
    method TasksFrom(offset: nat, end: nat) returns (tasks: seq<Task>)
      requires offset <= end <= |order|
      ensures tasks == TasksOf(View(), order[offset..end])
    {
      tasks := [];
      for i := offset to end
        invariant tasks == TasksOf(View(), order[offset..i])
      {
        PageStep(View(), offset, i);
        if order[i] in entries {
          tasks := tasks + [entries[order[i]].task];
        }
      }
    }

    method List(cursor: Option<string>, pageSize: nat) returns (page: Listed)
      ensures page == TaskRegions.List(View(), cursor, pageSize)
    {
      var offset := 0;
      if cursor.Some? && cursor.value != "" {
        var parsed := ParseOffset(cursor.value);
        if parsed.None? {
          return BadCursor;
        }
        offset := parsed.value;
      }
      if offset >= |order| {
        return Tasks([], None);
      }
      var end := PageEnd(|order|, offset, pageSize);
      if end < offset {
        return Overflow;
      }
      var tasks := TasksFrom(offset, end);
      page := Tasks(tasks, if end < |order| then Some(ToString(end)) else None);
    }
  }
}
