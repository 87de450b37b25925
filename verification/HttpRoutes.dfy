// Reply routing of HttpSessionTransport (src/http_server_host.cpp): POST requests
// park a promise under their canonical id, responses and close() take it out. One
// action per lock region or atomic access.
module HttpRoutes {
  import opened Wrappers
  import opened Json
  import opened JsonRpc

  /** canonical_id: anything but a string or an integer has the empty key. */
  function Key(id: Value): string {
    match id
    case Str(s) => Canonical(StrId(s))
    case Int(i) => Canonical(IntId(ToInt64(i)))
    case _ => ""
  }

  /** The ids JSON-RPC frames carry: strings and 64-bit integers. */
  predicate Proper(id: Value) {
    id.Str? || (id.Int? && IsInt64(id.i))
  }

  /** Proper ids have different keys, and no other value has the key of one. */
  lemma KeyInjective(a: Value, b: Value)
    requires Proper(a)
    ensures Key(a) == Key(b) <==> b == a || (a.Int? && b.Int? && ToInt64(b.i) == a.i)
  {
    if (b.Str? || b.Int?) && Key(a) == Key(b) {
      CanonicalInjective(if a.Str? then StrId(a.s) else IntId(a.i), if b.Str? then StrId(b.s) else IntId(ToInt64(b.i)));
    }
  }

  /** All other values share one key. */
  lemma OneKeyForTheRest(a: Value, b: Value)
    requires !a.Str? && !a.Int?
    ensures Key(a) == Key(b) <==> !b.Str? && !b.Int?
  {
    if b.Str? || b.Int? {
      assert |Key(b)| >= 2;
    }
  }

  predicate Identified(j: Value) {
    j.Has("id") && !j.At("id").Null?
  }

  predicate IsRequest(j: Value) {
    Identified(j) && j.Has("method")
  }

  predicate IsResponse(j: Value) {
    Identified(j) && !j.Has("method")
  }

  // ---------------------------------------------------------------- state

  /** What a POST's future becomes. */
  datatype Outcome = Answer(frame: Value) | SessionClosed | BrokenPromise

  /** A promise taken out, or given up, for post number `post`. */
  datatype Taken = Taken(post: nat, outcome: Outcome)

  datatype ClosePc = Open | Marked | Drained

  /** `ids` (the request id of each POST, in order) and `taken` are history; a
      promise is settled by whoever took it, after the region: `settled` holds the
      positions in `taken` that have been. `senders` are the frames of send() calls
      that have found closed_ unset and not yet reached the map. */
  datatype Routes = Routes(
    pending: map<string, nat>,
    ids: seq<Value>,
    taken: seq<Taken>,
    settled: set<nat>,
    senders: map<nat, Value>,
    closePc: ClosePc)

  datatype Action =
    | Post(frame: Value)
    | BeginSend(t: nat, frame: Value)
    | Route(t: nat)
    | MarkClosed
    | DrainPending(order: seq<Taken>)
    | Settle(i: nat)

  const INIT := Routes(map[], [], [], {}, map[], Open)

  ghost predicate IsAwaiter(pending: map<string, nat>, k: nat) {
    exists key :: key in pending && pending[key] == k
  }

  /** The drained promises in the order the loop of close() meets them. */
  ghost predicate Drains(pending: map<string, nat>, order: seq<Taken>) {
    && (forall i :: 0 <= i < |order| ==> order[i].outcome.SessionClosed?)
    && (forall i, j :: 0 <= i < j < |order| ==> order[i].post != order[j].post)
    && (forall i :: 0 <= i < |order| ==> IsAwaiter(pending, order[i].post))
    && (forall key :: key in pending ==> Taken(pending[key], SessionClosed) in order)
  }

  ghost predicate Enabled(s: Routes, a: Action) {
    match a
    case Post(frame) => IsRequest(frame)
    case BeginSend(t, frame) => s.closePc.Open? && t !in s.senders && IsResponse(frame)
    case Route(t) => t in s.senders
    case MarkClosed => s.closePc.Open?
    case DrainPending(order) => s.closePc.Marked? && Drains(s.pending, order)
    case Settle(i) => i < |s.taken| && i !in s.settled
  }

  /** emplace keeps the promise already there; the new one is then destroyed. */
  function DoPost(s: Routes, id: Value): Routes {
    if Key(id) in s.pending
    then s.(ids := s.ids + [id], taken := s.taken + [Taken(|s.ids|, BrokenPromise)])
    else s.(ids := s.ids + [id], pending := s.pending[Key(id) := |s.ids|])
  }

  function ResponseKey(frame: Value): string {
    if Identified(frame) then Key(frame.At("id")) else ""
  }

  /** A response without an awaiter is refused. */
  function DoRoute(s: Routes, t: nat): Routes
    requires t in s.senders
  {
    var key := ResponseKey(s.senders[t]);
    if key !in s.pending then s.(senders := s.senders - {t})
    else s.(senders := s.senders - {t},
            pending := s.pending - {key},
            taken := s.taken + [Taken(s.pending[key], Answer(s.senders[t]))])
  }

  function DoDrain(s: Routes, order: seq<Taken>): Routes {
    s.(pending := map[], taken := s.taken + order, closePc := Drained)
  }

  ghost function Do(s: Routes, a: Action): Routes
    requires Enabled(s, a)
  {
    match a
    case Post(frame) => DoPost(s, frame.At("id"))
    case BeginSend(t, frame) => s.(senders := s.senders[t := frame])
    case Route(t) => DoRoute(s, t)
    case MarkClosed => s.(closePc := Marked)
    case DrainPending(order) => DoDrain(s, order)
    case Settle(i) => s.(settled := s.settled + {i})
  }

  ghost predicate Runs(s: Routes, acts: seq<Action>)
    decreases |acts|
  {
    acts == [] || (Enabled(s, acts[0]) && Runs(Do(s, acts[0]), acts[1..]))
  }

  ghost function End(s: Routes, acts: seq<Action>): Routes
    requires Runs(s, acts)
    decreases |acts|
  {
    if acts == [] then s else End(Do(s, acts[0]), acts[1..])
  }

  // ----------------------------------------------------------- invariant

  ghost predicate IsTaken(s: Routes, k: nat) {
    exists i :: 0 <= i < |s.taken| && s.taken[i].post == k
  }

  ghost predicate IsParked(s: Routes, k: nat) {
    k < |s.ids| && Key(s.ids[k]) in s.pending && s.pending[Key(s.ids[k])] == k
  }

  /** Parked under its own key, or taken just once: never both, never neither. */
  ghost predicate Placed(s: Routes) {
    && (forall key :: key in s.pending ==> s.pending[key] < |s.ids| && Key(s.ids[s.pending[key]]) == key)
    && (forall k: nat :: k < |s.ids| ==> (IsParked(s, k) <==> !IsTaken(s, k)))
    && (forall i :: 0 <= i < |s.taken| ==> s.taken[i].post < |s.ids|)
    && (forall i, j :: 0 <= i < j < |s.taken| ==> s.taken[i].post != s.taken[j].post)
  }

  /** An answer has the key of the request it answers. */
  ghost predicate Answered(s: Routes) {
    && (forall t :: t in s.senders ==> IsResponse(s.senders[t]))
    && (forall i :: 0 <= i < |s.taken| && s.taken[i].outcome.Answer? ==>
          s.taken[i].post < |s.ids|
          && IsResponse(s.taken[i].outcome.frame)
          && ResponseKey(s.taken[i].outcome.frame) == Key(s.ids[s.taken[i].post]))
  }

  ghost predicate Inv(s: Routes) {
    Placed(s) && Answered(s)
  }

  lemma TakenMore(s: Routes, s': Routes, x: Taken)
    requires s'.taken == s.taken + [x]
    ensures forall k: nat :: IsTaken(s', k) <==> IsTaken(s, k) || k == x.post
  {
    assert s'.taken[|s.taken|] == x;
    forall k: nat ensures IsTaken(s', k) <==> IsTaken(s, k) || k == x.post {
      if IsTaken(s, k) {
        var i :| 0 <= i < |s.taken| && s.taken[i].post == k;
        assert s'.taken[i].post == k;
      }
    }
  }

  /** A POST whose key is parked is given up at once. */
  lemma PlacedBroken(s: Routes, id: Value)
    requires Placed(s) && Key(id) in s.pending
    ensures Placed(DoPost(s, id))
  {
    var s' := DoPost(s, id);
    TakenMore(s, s', Taken(|s.ids|, BrokenPromise));
    forall k: nat | k < |s'.ids| ensures IsParked(s', k) <==> !IsTaken(s', k) {
      assert k < |s.ids| ==> (IsParked(s', k) <==> IsParked(s, k));
    }
  }

  lemma PlacedParked(s: Routes, id: Value)
    requires Placed(s) && Key(id) !in s.pending
    ensures Placed(DoPost(s, id))
  {
    var s' := DoPost(s, id);
    forall k: nat ensures IsTaken(s', k) <==> IsTaken(s, k) {
    }
    forall k: nat | k < |s'.ids| ensures IsParked(s', k) <==> !IsTaken(s', k) {
      assert k < |s.ids| ==> (IsParked(s', k) <==> IsParked(s, k));
    }
  }

  lemma PlacedPost(s: Routes, id: Value)
    requires Placed(s)
    ensures Placed(DoPost(s, id))
  {
    if Key(id) in s.pending {
      PlacedBroken(s, id);
    } else {
      PlacedParked(s, id);
    }
  }

  /** The region of send: the key leaves the map, its promise goes to `taken`. */
  lemma PlacedTake(s: Routes, key: string, outcome: Outcome)
    requires Placed(s) && key in s.pending
    ensures Placed(s.(pending := s.pending - {key}, taken := s.taken + [Taken(s.pending[key], outcome)]))
  {
    var k0 := s.pending[key];
    var s' := s.(pending := s.pending - {key}, taken := s.taken + [Taken(k0, outcome)]);
    assert IsParked(s, k0);
    TakenMore(s, s', Taken(k0, outcome));
    forall k: nat | k < |s'.ids| ensures IsParked(s', k) <==> !IsTaken(s', k) {
      assert IsParked(s', k) <==> IsParked(s, k) && k != k0;
    }
  }

  lemma DrainsParked(s: Routes, order: seq<Taken>, i: nat)
    requires Placed(s) && Drains(s.pending, order) && i < |order|
    ensures IsParked(s, order[i].post)
  {
    assert IsAwaiter(s.pending, order[i].post);
    var key :| key in s.pending && s.pending[key] == order[i].post;
  }

  /** After the drain every POST has been taken out. */
  lemma DrainsAll(s: Routes, order: seq<Taken>, k: nat)
    requires Placed(s) && Drains(s.pending, order) && k < |s.ids|
    ensures IsTaken(DoDrain(s, order), k)
  {
    var taken := s.taken + order;
    if IsParked(s, k) {
      var i :| 0 <= i < |order| && order[i] == Taken(k, SessionClosed);
      assert taken[|s.taken| + i].post == k;
    } else {
      var i :| 0 <= i < |s.taken| && s.taken[i].post == k;
      assert taken[i].post == k;
    }
  }

  lemma DrainsApart(s: Routes, order: seq<Taken>, i: nat, j: nat)
    requires Placed(s) && Drains(s.pending, order) && i < |s.taken| && j < |order|
    ensures s.taken[i].post != order[j].post
  {
    DrainsParked(s, order, j);
    assert IsTaken(s, s.taken[i].post);
  }

  lemma PlacedDrain(s: Routes, order: seq<Taken>)
    requires Placed(s) && Drains(s.pending, order)
    ensures Placed(DoDrain(s, order))
  {
    var taken := s.taken + order;
    forall k: nat | k < |s.ids| ensures IsTaken(DoDrain(s, order), k) {
      DrainsAll(s, order, k);
    }
    forall i | 0 <= i < |taken| ensures taken[i].post < |s.ids| {
      if i >= |s.taken| {
        DrainsParked(s, order, i - |s.taken|);
      }
    }
    forall i, j | 0 <= i < j < |taken| ensures taken[i].post != taken[j].post {
      if i < |s.taken| <= j {
        DrainsApart(s, order, i, j - |s.taken|);
      }
    }
  }

  lemma PlacedSame(s: Routes, s': Routes)
    requires Placed(s) && s'.pending == s.pending && s'.ids == s.ids && s'.taken == s.taken
    ensures Placed(s')
  {
    forall k: nat ensures IsParked(s', k) <==> IsParked(s, k) {
    }
    forall k: nat ensures IsTaken(s', k) <==> IsTaken(s, k) {
    }
  }

  lemma PlacedRoute(s: Routes, t: nat)
    requires Placed(s) && t in s.senders
    ensures Placed(DoRoute(s, t))
  {
    var key := ResponseKey(s.senders[t]);
    if key in s.pending {
      PlacedTake(s, key, Answer(s.senders[t]));
      PlacedSame(s.(pending := s.pending - {key}, taken := s.taken + [Taken(s.pending[key], Answer(s.senders[t]))]),
                 DoRoute(s, t));
    } else {
      PlacedSame(s, DoRoute(s, t));
    }
  }

  lemma InvStep(s: Routes, a: Action)
    requires Inv(s) && Enabled(s, a)
    ensures Inv(Do(s, a))
  {
    match a
    case Post(frame) => PlacedPost(s, frame.At("id"));
    case BeginSend(t, frame) => PlacedSame(s, Do(s, a));
    case Route(t) => PlacedRoute(s, t);
    case MarkClosed => PlacedSame(s, Do(s, a));
    case DrainPending(order) => PlacedDrain(s, order);
    case Settle(i) => PlacedSame(s, Do(s, a));
  }

  lemma {:induction false} InvRun(s: Routes, acts: seq<Action>)
    requires Inv(s) && Runs(s, acts)
    ensures Inv(End(s, acts))
    decreases |acts|
  {
    if acts != [] {
      InvStep(s, acts[0]);
      InvRun(Do(s, acts[0]), acts[1..]);
    }
  }

  // ------------------------------------------------------------ theorems

  ghost predicate IsHeld(s: Routes, k: nat) {
    exists i :: 0 <= i < |s.taken| && s.taken[i].post == k && i !in s.settled
  }

  ghost predicate IsSettled(s: Routes, k: nat) {
    exists i :: 0 <= i < |s.taken| && s.taken[i].post == k && i in s.settled
  }

  /** In every interleaving with close() a POST's promise is parked, or held by one
      thread, or settled; and what it is settled with is one outcome. */
  lemma SettledAtMostOnce(acts: seq<Action>, k: nat)
    requires Runs(INIT, acts) && k < |End(INIT, acts).ids|
    ensures var s := End(INIT, acts);
      && (IsParked(s, k) || IsHeld(s, k) || IsSettled(s, k))
      && !(IsParked(s, k) && (IsHeld(s, k) || IsSettled(s, k)))
      && !(IsHeld(s, k) && IsSettled(s, k))
      && forall i, j :: 0 <= i < j < |s.taken| ==> s.taken[i].post != s.taken[j].post
  {
    InvRun(INIT, acts);
    var s := End(INIT, acts);
    assert IsTaken(s, k) <==> IsHeld(s, k) || IsSettled(s, k);
  }

  /** An awaiter is answered only with a response of its own id. */
  lemma OwnAnswer(acts: seq<Action>, i: nat)
    requires Runs(INIT, acts) && i < |End(INIT, acts).taken| && End(INIT, acts).taken[i].outcome.Answer?
    ensures var s := End(INIT, acts); var frame := s.taken[i].outcome.frame;
      && s.taken[i].post < |s.ids|
      && IsResponse(frame)
      && (Proper(s.ids[s.taken[i].post]) && Proper(frame.At("id")) ==> frame.At("id") == s.ids[s.taken[i].post])
  {
    InvRun(INIT, acts);
    var s := End(INIT, acts);
    var id, answered := s.taken[i].outcome.frame.At("id"), s.ids[s.taken[i].post];
    if Proper(id) && Proper(answered) {
      KeyInjective(answered, id);
    }
  }

  /** A POST breaks its own promise if and only if one of the same key is parked. */
  lemma BrokenIffDuplicate(s: Routes, id: Value)
    requires Inv(s)
    ensures IsParked(DoPost(s, id), |s.ids|) <==> !exists k: nat :: IsParked(s, k) && Key(s.ids[k]) == Key(id)
    ensures IsTaken(DoPost(s, id), |s.ids|) <==> exists k: nat :: IsParked(s, k) && Key(s.ids[k]) == Key(id)
    ensures DoPost(s, id).taken == s.taken
      || DoPost(s, id).taken == s.taken + [Taken(|s.ids|, BrokenPromise)]
  {
    PlacedPost(s, id);
    if Key(id) in s.pending {
      assert IsParked(s, s.pending[Key(id)]);
    }
  }

  /** A response in the hands of send() reaches the POST parked under its id. */
  lemma AnswerReaches(s: Routes, t: nat, k: nat)
    requires Inv(s) && t in s.senders && IsParked(s, k)
    requires Key(s.senders[t].At("id")) == Key(s.ids[k])
    ensures DoRoute(s, t).taken == s.taken + [Taken(k, Answer(s.senders[t]))]
    ensures !IsParked(DoRoute(s, t), k)
  {
  }

  /** A response without an awaiter changes nothing, and is not tried again. */
  lemma RefusedResponse(s: Routes, t: nat)
    requires t in s.senders && ResponseKey(s.senders[t]) !in s.pending
    ensures DoRoute(s, t) == s.(senders := DoRoute(s, t).senders)
    ensures DoRoute(s, t).senders.Keys == s.senders.Keys - {t}
  {
  }

  function SettlesOf(acts: seq<Action>, i: nat): nat {
    if acts == [] then 0 else (if acts[0] == Settle(i) then 1 else 0) + SettlesOf(acts[1..], i)
  }

  /** In no run is a promise settled twice. */
  lemma {:induction false} SettledOnce(s: Routes, acts: seq<Action>, i: nat)
    requires Runs(s, acts)
    ensures i in End(s, acts).settled <==> i in s.settled || SettlesOf(acts, i) > 0
    ensures SettlesOf(acts, i) <= if i in s.settled then 0 else 1
    decreases |acts|
  {
    if acts != [] {
      SettledOnce(Do(s, acts[0]), acts[1..], i);
    }
  }

  /** The drain of close() tells every parked POST. */
  lemma DrainTells(s: Routes, order: seq<Taken>, k: nat)
    requires Inv(s) && IsParked(s, k) && Enabled(s, DrainPending(order))
    ensures var s' := Do(s, DrainPending(order));
      !IsParked(s', k)
      && exists i :: |s.taken| <= i < |s'.taken| && s'.taken[i] == Taken(k, SessionClosed)
  {
    assert Taken(k, SessionClosed) in order;
    var i :| 0 <= i < |order| && order[i] == Taken(k, SessionClosed);
    assert (s.taken + order)[|s.taken| + i] == order[i];
  }

  /** The frames of a Session are told apart as the protocol does: a request is one,
      a response with an id is one, and everything else is neither. */
  lemma Classified(m: Message)
    requires Typed(m)
    ensures IsRequest(Serialize(m)) <==> m.Request?
    ensures IsResponse(Serialize(m)) <==> m.Response? && m.target.Some?
    ensures m.Request? ==> Key(Serialize(m).At("id")) == Canonical(m.id) && Proper(Serialize(m).At("id"))
    ensures m.Response? && m.target.Some? ==>
      ResponseKey(Serialize(m)) == Canonical(m.target.value) && Proper(Serialize(m).At("id"))
  {
    SentConforms(m);
  }

  /** close() is past its drain and no send() under way carries k's id. */
  ghost predicate Starved(s: Routes, k: nat)
    requires k < |s.ids|
  {
    s.closePc.Drained? && forall t :: t in s.senders ==> ResponseKey(s.senders[t]) != Key(s.ids[k])
  }

  /** Some run takes k's promise out. */
  ghost predicate CanLeave(s: Routes, k: nat) {
    exists acts :: Runs(s, acts) && !IsParked(End(s, acts), k)
  }

  lemma StarvedStep(s: Routes, a: Action, k: nat)
    requires Inv(s) && Enabled(s, a) && IsParked(s, k) && Starved(s, k)
    ensures IsParked(Do(s, a), k) && Starved(Do(s, a), k)
  {
    if a.Post? {
      assert DoPost(s, a.frame.At("id")).ids[k] == s.ids[k];
    }
  }

  lemma {:induction false} StarvedRun(s: Routes, acts: seq<Action>, k: nat)
    requires Inv(s) && IsParked(s, k) && Starved(s, k) && Runs(s, acts)
    ensures IsParked(End(s, acts), k)
    decreases |acts|
  {
    if acts != [] {
      InvStep(s, acts[0]);
      StarvedStep(s, acts[0], k);
      StarvedRun(Do(s, acts[0]), acts[1..], k);
    }
  }

  lemma LeavesNow(s: Routes, a: Action, k: nat)
    requires Enabled(s, a) && !IsParked(Do(s, a), k)
    ensures CanLeave(s, k)
  {
    assert [a][1..] == [];
    assert Runs(Do(s, a), []) && End(Do(s, a), []) == Do(s, a);
    assert Runs(s, [a]) && End(s, [a]) == Do(s, a);
  }

  lemma LeavesLater(s: Routes, a: Action, k: nat)
    requires Enabled(s, a) && CanLeave(Do(s, a), k)
    ensures CanLeave(s, k)
  {
    var acts :| Runs(Do(s, a), acts) && !IsParked(End(Do(s, a), acts), k);
    var all := [a] + acts;
    assert all[0] == a && all[1..] == acts;
    assert Runs(s, all) && End(s, all) == End(Do(s, a), acts);
  }

  /** Every map of awaiters can be drained in some order. */
  lemma {:induction false} DrainOrder(pending: map<string, nat>) returns (order: seq<Taken>)
    requires forall a, b :: a in pending && b in pending && a != b ==> pending[a] != pending[b]
    ensures Drains(pending, order)
    decreases |pending|
  {
    if pending == map[] {
      order := [];
    } else {
      var key :| key in pending;
      var rest := pending - {key};
      assert rest.Keys == pending.Keys - {key};
      var tail := DrainOrder(rest);
      DrainOneMore(pending, key, tail);
      order := [Taken(pending[key], SessionClosed)] + tail;
    }
  }

  lemma DrainOneMore(pending: map<string, nat>, key: string, tail: seq<Taken>)
    requires key in pending && Drains(pending - {key}, tail)
    requires forall a, b :: a in pending && b in pending && a != b ==> pending[a] != pending[b]
    ensures Drains(pending, [Taken(pending[key], SessionClosed)] + tail)
  {
    var rest := pending - {key};
    var order := [Taken(pending[key], SessionClosed)] + tail;
    forall i | 0 <= i < |tail|
      ensures IsAwaiter(pending, tail[i].post) && tail[i].post != pending[key]
    {
      assert IsAwaiter(rest, tail[i].post);
      var x :| x in rest && rest[x] == tail[i].post;
      assert x in pending && pending[x] == tail[i].post && x != key;
    }
    forall i | 0 <= i < |order|
      ensures order[i].outcome.SessionClosed? && IsAwaiter(pending, order[i].post)
    {
      assert i > 0 ==> order[i] == tail[i - 1];
    }
    forall i, j | 0 <= i < j < |order| ensures order[i].post != order[j].post {
      assert order[j] == tail[j - 1];
      assert i > 0 ==> order[i] == tail[i - 1];
    }
    forall x | x in pending ensures Taken(pending[x], SessionClosed) in order {
      if x == key {
        assert order[0] == Taken(pending[key], SessionClosed);
      } else {
        assert Taken(rest[x], SessionClosed) in tail;
      }
    }
  }

  lemma MarkedLeaves(s: Routes, k: nat)
    requires Inv(s) && s.closePc.Marked?
    ensures CanLeave(s, k)
  {
    var order := DrainOrder(s.pending);
    LeavesNow(s, DrainPending(order), k);
  }

  /** No run ever takes a parked POST out, so that it is neither answered nor told
      of the close, if and only if close() is past its drain and no send() already
      under way carries a response to it. */
  lemma PostAfterCloseStarves(s: Routes, k: nat)
    requires Inv(s) && IsParked(s, k)
    ensures !CanLeave(s, k) <==> Starved(s, k)
  {
    if Starved(s, k) {
      forall acts | Runs(s, acts) ensures IsParked(End(s, acts), k) {
        StarvedRun(s, acts, k);
      }
    } else {
      match s.closePc
      case Open =>
        InvStep(s, MarkClosed);
        MarkedLeaves(Do(s, MarkClosed), k);
        LeavesLater(s, MarkClosed, k);
      case Marked => MarkedLeaves(s, k);
      case Drained =>
        var t :| t in s.senders && ResponseKey(s.senders[t]) == Key(s.ids[k]);
        AnswerReaches(s, t, k);
        LeavesNow(s, Route(t), k);
    }
  }

  /** The case is real: a POST that comes after close() has drained the table. */
  lemma PostAfterDrain(s: Routes, id: Value)
    requires Inv(s) && s.closePc.Drained? && Key(id) !in s.pending
    requires forall t :: t in s.senders ==> ResponseKey(s.senders[t]) != Key(id)
    ensures !CanLeave(DoPost(s, id), |s.ids|)
  {
    PlacedPost(s, id);
    PostAfterCloseStarves(DoPost(s, id), |s.ids|);
  }

  // -------------------------------------------------------------- object

  class RouteTable {
    var closed: bool
    var pending: map<string, nat>
    ghost var s: Routes

    ghost predicate Valid()
      reads this
    {
      s.pending == pending && (closed <==> !s.closePc.Open?)
    }

    constructor ()
      ensures Valid() && s == INIT
    {
      closed, pending, s := false, map[], INIT;
    }

    /** The registration of a request; false when the key was taken. */
    method Emplace(id: Value, number: nat) returns (parked: bool)
      requires Valid() && number == |s.ids|
      modifies this
      ensures Valid() && s == DoPost(old(s), id)
      ensures parked <==> s.taken == old(s).taken
    {
      var key := Key(id);
      parked := key !in pending;
      if parked {
        pending := pending[key := number];
      }
      s := DoPost(s, id);
    }

    /** The region of send for a response: the promise to settle, if any. */
    method TakeAwaiter(ghost t: nat, frame: Value) returns (awaiter: Option<nat>)
      requires Valid() && t in s.senders && s.senders[t] == frame && IsResponse(frame)
      modifies this
      ensures Valid() && s == DoRoute(old(s), t)
      ensures s.taken == if awaiter.Some? then old(s).taken + [Taken(awaiter.value, Answer(frame))] else old(s).taken
    {
      var key := Key(frame.At("id"));
      awaiter := None;
      if key in pending {
        awaiter := Some(pending[key]);
        pending := pending - {key};
      }
      s := DoRoute(s, t);
    }

    /** close(): true for the call that closes. */
    method Exchange() returns (first: bool)
      requires Valid()
      modifies this
      ensures Valid() && closed
      ensures first <==> old(s).closePc.Open?
      ensures s == if first then old(s).(closePc := Marked) else old(s)
    {
      first := !closed;
      closed := true;
      if first {
        s := s.(closePc := Marked);
      }
    }

    /** The swap and the loop of close(). */
    method DrainAll() returns (order: seq<Taken>)
      requires Valid() && s.closePc.Marked? && Placed(s)
      modifies this
      ensures Drains(old(s).pending, order)
      ensures Valid() && s == DoDrain(old(s), order) && pending == map[]
    {
      var drained := pending;
      pending := map[];
      order := [];
      var todo := drained.Keys;
      while todo != {}
        invariant todo <= drained.Keys
        invariant forall i :: 0 <= i < |order| ==> order[i].outcome.SessionClosed? && IsAwaiter(drained, order[i].post)
        invariant forall i, j :: 0 <= i < j < |order| ==> order[i].post != order[j].post
        invariant forall key :: key in drained.Keys - todo ==> Taken(drained[key], SessionClosed) in order
        invariant forall key :: key in todo ==> Taken(drained[key], SessionClosed) !in order
        decreases todo
      {
        var key :| key in todo;
        order := order + [Taken(drained[key], SessionClosed)];
        todo := todo - {key};
      }
      s := DoDrain(s, order);
    }
  }
}
