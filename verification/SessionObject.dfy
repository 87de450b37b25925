// The Session object: its fields, and the code that runs under pending_mu_.
// Each method performs one action of the state machine on the ghost state m;
// `now` is a reading of the steady clock.
module SessionObject {
  import opened Wrappers
  import opened Json
  import opened JsonRpc
  import opened SessionMachine

  /** What register_pending's region decided. */
  datatype Parked = ParkedOk | ParkedClosed | ParkedDuplicate

  /** The loop of timeout_loop that looks for the next deadline. */
  method SoonestDeadline(pending: map<RequestId, Pending>) returns (soonest: int)
    requires pending != map[]
    ensures IsSoonest(pending, soonest)
  {
    var id :| id in pending;
    soonest := pending[id].deadline;
    var todo := pending.Keys - {id};
    while todo != {}
      invariant todo < pending.Keys
      invariant exists k :: k in pending.Keys - todo && pending[k].deadline == soonest
      invariant forall k :: k in pending.Keys - todo ==> soonest <= pending[k].deadline
      decreases todo
    {
      var k :| k in todo;
      if pending[k].deadline < soonest {
        soonest := pending[k].deadline;
      }
      todo := todo - {k};
      assert k in pending.Keys - todo;
    }
  }

  /** How far the loop below has come, with todo still to look at. */
  ghost predicate Erasing(pending: map<RequestId, Pending>, now: int, todo: set<RequestId>,
                          rest: map<RequestId, Pending>, expired: seq<RequestId>) {
    var done := Due(pending, now) - todo;
    rest == pending - done && multiset(expired) == multiset(done)
  }

  lemma ErasingEnds(pending: map<RequestId, Pending>, now: int)
    ensures Erasing(pending, now, pending.Keys, pending, [])
    ensures Due(pending, now) - {} == Due(pending, now)
  {
    assert Due(pending, now) - pending.Keys == {};
    assert pending - {} == pending;
  }

  /** One turn of it: id leaves todo, erased or kept. */
  lemma ErasingStep(pending: map<RequestId, Pending>, now: int, todo: set<RequestId>,
                    rest: map<RequestId, Pending>, expired: seq<RequestId>, id: RequestId)
    requires id in todo && id in pending && Erasing(pending, now, todo, rest, expired)
    ensures if pending[id].deadline <= now
      then Erasing(pending, now, todo - {id}, rest - {id}, expired + [id])
      else Erasing(pending, now, todo - {id}, rest, expired)
  {
    var done := Due(pending, now) - todo;
    if pending[id].deadline <= now {
      assert Due(pending, now) - (todo - {id}) == done + {id};
      assert multiset(done + {id}) == multiset(done) + multiset{id};
      assert pending - done - {id} == pending - (done + {id});
    } else {
      assert Due(pending, now) - (todo - {id}) == done;
    }
  }

  /** The loop of timeout_loop that erases the entries due at `now`. */
  method EraseDue(pending: map<RequestId, Pending>, now: int)
    returns (rest: map<RequestId, Pending>, expired: seq<RequestId>)
    ensures rest == pending - Due(pending, now)
    ensures Enumerates(expired, Due(pending, now))
  {
    rest, expired := pending, [];
    var todo := pending.Keys;
    ErasingEnds(pending, now);
    while todo != {}
      invariant todo <= pending.Keys
      invariant Erasing(pending, now, todo, rest, expired)
      decreases todo
    {
      var id :| id in todo;
      ErasingStep(pending, now, todo, rest, expired, id);
      if pending[id].deadline <= now {
        expired := expired + [id];
        rest := rest - {id};
      }
      todo := todo - {id};
    }
  }

  /** The loop of cancel_all_pending over the drained map. */
  method Walk(entries: map<RequestId, Pending>) returns (order: seq<RequestId>)
    ensures Enumerates(order, entries.Keys)
  {
    order := [];
    var todo := entries.Keys;
    while todo != {}
      invariant todo <= entries.Keys
      invariant multiset(order) == multiset(entries.Keys - todo)
      decreases todo
    {
      var id :| id in todo;
      order := order + [id];
      assert entries.Keys - (todo - {id}) == (entries.Keys - todo) + {id};
      todo := todo - {id};
    }
    assert entries.Keys - {} == entries.Keys;
  }

  class Session {
    const defaultTimeout: int
    var nextId: int
    var closed: bool
    var pending: map<RequestId, Pending>
    ghost var m: SessionMachine.Session

    ghost predicate Valid()
      reads this
    {
      && m.defaultTimeout == defaultTimeout
      && m.next == nextId
      && m.closed == closed
      && m.pending == pending
    }

    constructor (timeout: int)
      ensures Valid() && m == Init(timeout)
    {
      defaultTimeout := timeout;
      nextId := 1;
      closed := false;
      pending := map[];
      m := Init(timeout);
    }

    /** next_id, and the deadline counted from now. */
    method Begin(name: string, params: Value, timeout: int, now: int) returns (id: RequestId, deadline: int)
      requires Valid() && now == m.now && IsInt64(nextId)
      modifies this
      ensures Valid() && m == DoIssue(old(m), name, params, timeout)
      ensures id == IntId(old(nextId)) && id in m.requests && m.requests[id] == Asked(name, params, deadline)
      ensures deadline == if timeout != 0 then now + timeout else now + defaultTimeout
    {
      id := IntId(nextId);
      deadline := now + (if timeout == 0 then defaultTimeout else timeout);
      nextId := nextId + 1;
      m := DoIssue(m, name, params, timeout);
      assert m.requests[id] == Asked(name, params, deadline);
    }

    /** The mutex is taken and closed_ is read. */
    method ReadClosed(ghost id: RequestId) returns (seen: bool)
      requires Valid() && CanCall(m, id, CallStep.Lock)
      modifies this
      ensures Valid() && m == DoCall(old(m), id, CallStep.Lock)
      ensures m.calls[id] == Deciding(seen)
    {
      seen := closed;
      m := DoCall(m, id, CallStep.Lock);
    }

    /** The rest of the region, up to the unlock. */
    method Park(id: RequestId, seen: bool, deadline: int) returns (state: Parked)
      requires Valid() && CanCall(m, id, Unlock)
      requires m.calls[id] == Deciding(seen) && m.requests[id].deadline == deadline
      modifies this
      ensures Valid() && m == DoCall(old(m), id, Unlock)
      ensures m.removed == match state
        case ParkedOk => old(m.removed)
        case ParkedClosed => old(m.removed) + [Removal(id, SessionClosed, Caller)]
        case ParkedDuplicate => old(m.removed) + [Removal(id, DuplicateId, Caller)]
      ensures state.ParkedOk? <==> id in m.calls
    {
      if seen {
        state := ParkedClosed;
      } else if id !in pending {
        pending := pending[id := Pending(deadline)];
        state := ParkedOk;
      } else {
        state := ParkedDuplicate;
      }
      m := DoCall(m, id, Unlock);
    }

    /** The region after a refused send; the entry found is the caller's to reject. */
    method TakeBack(id: RequestId) returns (found: bool)
      requires Valid() && CanCall(m, id, Reclaim)
      modifies this
      ensures Valid() && m == DoCall(old(m), id, Reclaim)
      ensures m.removed == if found then old(m.removed) + [Removal(id, SendFailed, Caller)] else old(m.removed)
    {
      found := id in pending;
      if found {
        pending := pending - {id};
      }
      m := DoCall(m, id, Reclaim);
    }

    /** handle_response's region: true when the response is for a parked request. */
    method TakeForResponse(target: Option<RequestId>, ghost outcome: Outcome) returns (found: bool)
      requires Valid() && m.lock.Free?
      modifies this
      ensures Valid() && m == DoReceive(old(m), Frame(Response(target, outcome)))
      ensures found <==> |m.removed| == |old(m.removed)| + 1
      ensures found ==> m.removed[|m.removed| - 1] == Removal(target.value, VerdictOf(outcome), Reader)
    {
      found := false;
      if target.Some? {
        if target.value in pending {
          pending := pending - {target.value};
          found := true;
        }
      }
      m := DoReceive(m, Frame(Response(target, outcome)));
    }

    /** timeout_loop up to its wait: None is the untimed wait. */
    method NextWake() returns (wake: Option<int>)
      requires Valid() && m.timer == LoopHead(false)
      modifies this
      ensures Valid() && m == DoTime(old(m), Decide) && m.timer == Waiting(wake)
    {
      if pending == map[] {
        wake := None;
      } else {
        var soonest := SoonestDeadline(pending);
        wake := Some(soonest);
      }
      m := DoTime(m, Decide);
    }

    /** timeout_loop after a wait ran out: erase what is due, in the map's order. */
    method ExpireDue(now: int) returns (expired: seq<RequestId>)
      requires Valid() && now == m.now && m.lock.Free?
      requires (m.timer.Waiting? || m.timer.Woken?) && m.timer.wake.Some? && m.timer.wake.value <= now
      modifies this
      ensures CanTime(old(m), Expire(expired))
      ensures Valid() && m == DoTime(old(m), Expire(expired))
    {
      pending, expired := EraseDue(pending, now);
      m := DoTime(m, Expire(expired));
    }

    /** cancel_all_pending from thread t of close(): swap the map out, then walk it. */
    method CancelAll(ghost t: nat) returns (drained: seq<RequestId>)
      requires Valid() && m.lock.Free? && t in m.closers && m.closers[t].Marked?
      modifies this
      ensures CanClose(old(m), t, Drain(drained))
      ensures Valid() && m == DoClose(old(m), t, Drain(drained)) && pending == map[]
    {
      var entries := pending;
      pending := map[];
      drained := Walk(entries);
      m := DoClose(m, t, Drain(drained));
    }

    /** close()'s compare-and-swap; true for the first closer. */
    method MarkClosed(ghost t: nat) returns (first: bool)
      requires Valid() && t !in m.closers
      modifies this
      ensures Valid() && m == DoClose(old(m), t, Mark) && m.closers[t] == Marked(first)
    {
      first := !closed;
      closed := true;
      m := DoClose(m, t, Mark);
    }
  }
}
