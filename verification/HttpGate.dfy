// The start gate of HttpSessionTransport (src/http_server_host.cpp): frames that
// arrive before start() are buffered, and start() dispatches them outside the lock
// while later ones already pass.
module HttpGate {

  /** start(): the buffer swapped out, then, the callback being there, dispatched. */
  datatype StartPc = NotStarted | Swapped(drain: seq<string>) | Draining(rest: seq<string>) | Done

  /** History: `arrived` are the frames handed to deliver, `dispatched` those given
      to the callback, `dropped` those a start() that found no callback threw away;
      `blind` says that the region of start() ran before on_message. */
  datatype Gate = Gate(
    hooked: bool,
    started: bool,
    buffered: seq<string>,
    startPc: StartPc,
    arrived: seq<string>,
    dispatched: seq<string>,
    dropped: seq<string>,
    blind: bool)

  /** Hook is on_message, Start the region of start(), Look its reading of the
      callback after the unlock, Dispatch one turn of its loop, Deliver the region at
      the end of deliver_request_or_notification. */
  datatype Action = Hook | Start | Look | Dispatch | Deliver(raw: string)

  const INIT := Gate(false, false, [], NotStarted, [], [], [], false)

  predicate Enabled(g: Gate, a: Action) {
    match a
    case Hook => true
    case Start => g.startPc.NotStarted?
    case Look => g.startPc.Swapped?
    case Dispatch => g.startPc.Draining? && g.startPc.rest != []
    case Deliver(_) => true
  }

  function DoStart(g: Gate): Gate {
    g.(started := true, buffered := [], startPc := Swapped(g.buffered), blind := !g.hooked)
  }

  /** Without a callback the drained frames are dropped. */
  function DoLook(g: Gate): Gate
    requires Enabled(g, Look)
  {
    if g.hooked then g.(startPc := Draining(g.startPc.drain))
    else g.(startPc := Done, dropped := g.startPc.drain)
  }

  function DoDispatch(g: Gate): Gate
    requires Enabled(g, Dispatch)
  {
    g.(startPc := Draining(g.startPc.rest[1..]), dispatched := g.dispatched + [g.startPc.rest[0]])
  }

  /** Whether deliver passes the frame on at once. */
  predicate Passes(g: Gate) {
    g.started && g.hooked
  }

  function DoDeliver(g: Gate, raw: string): Gate {
    if Passes(g) then g.(arrived := g.arrived + [raw], dispatched := g.dispatched + [raw])
    else g.(arrived := g.arrived + [raw], buffered := g.buffered + [raw])
  }

  function Do(g: Gate, a: Action): Gate
    requires Enabled(g, a)
  {
    match a
    case Hook => g.(hooked := true)
    case Start => DoStart(g)
    case Look => DoLook(g)
    case Dispatch => DoDispatch(g)
    case Deliver(raw) => DoDeliver(g, raw)
  }

  predicate Runs(g: Gate, acts: seq<Action>)
    decreases |acts|
  {
    acts == [] || (Enabled(g, acts[0]) && Runs(Do(g, acts[0]), acts[1..]))
  }

  function End(g: Gate, acts: seq<Action>): Gate
    requires Runs(g, acts)
    decreases |acts|
  {
    if acts == [] then g else End(Do(g, acts[0]), acts[1..])
  }

  /** What start() has taken and not yet dispatched. */
  function InHand(g: Gate): seq<string> {
    match g.startPc
    case Swapped(drain) => drain
    case Draining(rest) => rest
    case _ => []
  }

  // -------------------------------------------------------- conservation

  /** The frames in all the places a frame can be. */
  function Places(g: Gate): multiset<string> {
    multiset(g.buffered) + multiset(InHand(g)) + multiset(g.dispatched) + multiset(g.dropped)
  }

  /** Every frame that arrived is in exactly one place. */
  ghost predicate Conserved(g: Gate) {
    && multiset(g.arrived) == Places(g)
    && (g.startPc.NotStarted? <==> !g.started)
    && (!g.started ==> !g.blind && g.dispatched == [] && g.dropped == [])
    && (g.started && !g.blind ==> g.hooked && g.buffered == [] && g.dropped == [])
    && (!g.hooked ==> g.dispatched == [] && !g.startPc.Draining?)
    && (g.startPc.Swapped? || g.startPc.Draining? ==> g.dropped == [])
  }

  lemma StartConserved(g: Gate)
    requires Conserved(g) && Enabled(g, Start)
    ensures Conserved(DoStart(g))
  {
  }

  lemma LookConserved(g: Gate)
    requires Conserved(g) && Enabled(g, Look)
    ensures Conserved(DoLook(g))
  {
  }

  lemma DispatchConserved(g: Gate)
    requires Conserved(g) && Enabled(g, Dispatch)
    ensures Conserved(DoDispatch(g))
  {
    var first, rest := g.startPc.rest[0], g.startPc.rest[1..];
    assert g.startPc.rest == [first] + rest;
    assert multiset(DoDispatch(g).dispatched) == multiset(g.dispatched) + multiset{first};
  }

  lemma DeliverConserved(g: Gate, raw: string)
    requires Conserved(g)
    ensures Conserved(DoDeliver(g, raw))
  {
    DeliverPlaces(g, raw);
    assert multiset(g.arrived + [raw]) == multiset(g.arrived) + multiset{raw};
  }

  lemma DeliverPlaces(g: Gate, raw: string)
    ensures Places(DoDeliver(g, raw)) == Places(g) + multiset{raw}
  {
    var buffered, held, dispatched, dropped :=
      multiset(g.buffered), multiset(InHand(g)), multiset(g.dispatched), multiset(g.dropped);
    if Passes(g) {
      assert multiset(g.dispatched + [raw]) == dispatched + multiset{raw};
      MoreDispatched(buffered + held, dispatched, dropped, multiset{raw});
    } else {
      assert multiset(g.buffered + [raw]) == buffered + multiset{raw};
      MoreBuffered(buffered, held, dispatched, dropped, multiset{raw});
    }
  }

  lemma MoreDispatched(a: multiset<string>, b: multiset<string>, c: multiset<string>, more: multiset<string>)
    ensures a + (b + more) + c == a + b + c + more
  {
  }

  lemma MoreBuffered(a: multiset<string>, b: multiset<string>, c: multiset<string>, d: multiset<string>,
                     more: multiset<string>)
    ensures a + more + b + c + d == a + b + c + d + more
  {
  }

  lemma ConservedStep(g: Gate, a: Action)
    requires Conserved(g) && Enabled(g, a)
    ensures Conserved(Do(g, a))
  {
    match a
    case Hook =>
    case Start => StartConserved(g);
    case Look => LookConserved(g);
    case Dispatch => DispatchConserved(g);
    case Deliver(raw) => DeliverConserved(g, raw);
  }

  lemma {:induction false} ConservedRun(g: Gate, acts: seq<Action>)
    requires Conserved(g) && Runs(g, acts)
    ensures Conserved(End(g, acts))
    decreases |acts|
  {
    if acts != [] {
      ConservedStep(g, acts[0]);
      ConservedRun(Do(g, acts[0]), acts[1..]);
    }
  }

  /** Whatever the race of deliveries with start(): no frame is invented or
      dispatched twice. Once start() has finished its loop, every frame that arrived
      has been dispatched if and only if none was dropped or is still buffered; and
      none is where on_message came before start(). */
  lemma DispatchedOnce(acts: seq<Action>)
    requires Runs(INIT, acts)
    ensures var g := End(INIT, acts);
      && multiset(g.dispatched) <= multiset(g.arrived)
      && (g.started && InHand(g) == [] ==>
           (multiset(g.dispatched) == multiset(g.arrived) <==> g.dropped == [] && g.buffered == []))
      && (g.started && !g.blind ==> g.dropped == [] && g.buffered == [])
      && (!g.hooked ==> g.dispatched == [])
  {
    ConservedRun(INIT, acts);
    if InHand(End(INIT, acts)) == [] {
      NothingElse(End(INIT, acts));
    }
  }

  lemma NothingElse(g: Gate)
    requires Conserved(g) && InHand(g) == []
    ensures multiset(g.dispatched) == multiset(g.arrived) <==> g.dropped == [] && g.buffered == []
  {
    assert |multiset(g.arrived)| == |g.buffered| + |g.dispatched| + |g.dropped|;
  }

  // --------------------------------------------------------------- order

  /** What is dispatched, will be, or is stranded, in that order, is what arrived. */
  ghost predicate InOrder(g: Gate) {
    g.arrived == g.dispatched + InHand(g) + g.buffered
  }

  ghost predicate Distinct(frames: seq<string>) {
    forall i, j :: 0 <= i < j < |frames| ==> frames[i] != frames[j]
  }

  /** A frame passes while earlier ones wait, or earlier ones are dropped. */
  predicate Breaks(g: Gate, a: Action) {
    match a
    case Deliver(_) => Passes(g) && InHand(g) + g.buffered != []
    case Look => !g.hooked && InHand(g) != []
    case _ => false
  }

  predicate Overtakes(g: Gate, acts: seq<Action>)
    requires Runs(g, acts)
    decreases |acts|
  {
    acts != [] && (Breaks(g, acts[0]) || Overtakes(Do(g, acts[0]), acts[1..]))
  }

  lemma Regroup(a: seq<string>, b: seq<string>, c: seq<string>)
    ensures a + b + c == a + (b + c)
  {
  }

  lemma DeliverOrder(g: Gate, raw: string)
    requires Conserved(g) && Distinct(g.arrived + [raw])
    ensures InOrder(DoDeliver(g, raw)) <==> InOrder(g) && !Breaks(g, Deliver(raw))
  {
    var g', late := DoDeliver(g, raw), InHand(g) + g.buffered;
    Regroup(g.dispatched, InHand(g), g.buffered);
    if Passes(g) {
      Regroup(g.dispatched + [raw], InHand(g), g.buffered);
      NotWaiting(g, raw);
      PassOrder(g.arrived, g.dispatched, late, raw);
    } else {
      Regroup(g.dispatched, InHand(g), g.buffered + [raw]);
      Regroup(InHand(g), g.buffered, [raw]);
      Regroup(g.dispatched, late, [raw]);
      SameLast(g.arrived, g.dispatched + late, raw);
    }
  }

  /** A new frame is none of those that wait. */
  lemma NotWaiting(g: Gate, raw: string)
    requires Conserved(g) && Distinct(g.arrived + [raw])
    ensures raw !in InHand(g) + g.buffered
  {
    var all := g.arrived + [raw];
    forall i | 0 <= i < |g.arrived| ensures g.arrived[i] != raw {
      assert all[i] == g.arrived[i] && all[|g.arrived|] == raw;
    }
    assert multiset(g.arrived)[raw] == 0;
  }

  lemma SameLast(a: seq<string>, b: seq<string>, raw: string)
    ensures a + [raw] == b + [raw] <==> a == b
  {
    if a + [raw] == b + [raw] {
      assert a == (a + [raw])[..|a|] == (b + [raw])[..|b|] == b;
    }
  }

  lemma PassOrder(arrived: seq<string>, dispatched: seq<string>, late: seq<string>, raw: string)
    requires raw !in late
    ensures arrived + [raw] == dispatched + [raw] + late <==> late == [] && arrived == dispatched
  {
    var before, after := arrived + [raw], dispatched + [raw] + late;
    if late == [] {
      assert after == dispatched + [raw];
      SameLast(arrived, dispatched, raw);
    } else {
      assert after[|after| - 1] == late[|late| - 1];
      assert before[|before| - 1] == raw;
    }
  }

  lemma DispatchOrder(g: Gate)
    requires Enabled(g, Dispatch)
    ensures InOrder(DoDispatch(g)) <==> InOrder(g)
  {
    var g', first := DoDispatch(g), g.startPc.rest[0];
    assert g.startPc.rest == [first] + g'.startPc.rest;
    assert g'.dispatched + InHand(g') + g'.buffered == g.dispatched + InHand(g) + g.buffered;
  }

  lemma StartOrder(g: Gate)
    requires Conserved(g) && Enabled(g, Start)
    ensures InOrder(DoStart(g)) <==> InOrder(g)
  {
    assert g.dispatched + InHand(g) + g.buffered == g.buffered;
    assert DoStart(g).dispatched + InHand(DoStart(g)) + DoStart(g).buffered == g.buffered;
  }

  lemma LookOrder(g: Gate)
    requires Conserved(g) && Enabled(g, Look)
    ensures InOrder(DoLook(g)) <==> InOrder(g) && !Breaks(g, Look)
  {
    var g' := DoLook(g);
    if !g.hooked && InHand(g) != [] {
      assert |multiset(g.arrived)| == |g.arrived|;
      assert |g'.dispatched + InHand(g') + g'.buffered| < |g.arrived|;
    } else if !g.hooked {
      assert g'.dispatched + InHand(g') + g'.buffered == g.dispatched + InHand(g) + g.buffered;
    }
  }

  /** One step keeps the order if and only if it is not of the breaking kind; once
      broken, the order stays broken. */
  lemma OrderStep(g: Gate, a: Action)
    requires Conserved(g) && Enabled(g, a) && Distinct(Do(g, a).arrived)
    ensures InOrder(Do(g, a)) <==> InOrder(g) && !Breaks(g, a)
  {
    match a
    case Hook =>
    case Start => StartOrder(g);
    case Look => LookOrder(g);
    case Dispatch => DispatchOrder(g);
    case Deliver(raw) => DeliverOrder(g, raw);
  }

  lemma {:induction false} ArrivedGrows(g: Gate, acts: seq<Action>)
    requires Runs(g, acts)
    ensures g.arrived <= End(g, acts).arrived
    decreases |acts|
  {
    if acts != [] {
      ArrivedGrows(Do(g, acts[0]), acts[1..]);
    }
  }

  lemma {:induction false} OrderRun(g: Gate, acts: seq<Action>)
    requires Conserved(g) && Runs(g, acts) && Distinct(End(g, acts).arrived)
    ensures InOrder(End(g, acts)) <==> InOrder(g) && !Overtakes(g, acts)
    decreases |acts|
  {
    if acts != [] {
      var next := Do(g, acts[0]);
      ArrivedGrows(next, acts[1..]);
      assert forall i :: 0 <= i < |next.arrived| ==> next.arrived[i] == End(g, acts).arrived[i];
      OrderStep(g, acts[0]);
      ConservedStep(g, acts[0]);
      OrderRun(next, acts[1..]);
    }
  }

  /** In any run over distinct frames the order of arrival is kept if and only if no
      frame passed while earlier ones were in the hands of start() or stranded in the
      buffer, and none was dropped. */
  lemma OrderKept(acts: seq<Action>)
    requires Runs(INIT, acts) && Distinct(End(INIT, acts).arrived)
    ensures InOrder(End(INIT, acts)) <==> !Overtakes(INIT, acts)
  {
    OrderRun(INIT, acts);
  }

  /** It is not always: a frame that arrives while start() is at work can overtake
      every buffered one, on_message having come first. */
  lemma MayOvertake(early: string, late: string) returns (acts: seq<Action>)
    ensures Runs(INIT, acts) && !End(INIT, acts).blind
    ensures End(INIT, acts).arrived == [early, late] && End(INIT, acts).dispatched == [late, early]
  {
    acts := [Hook, Deliver(early), Start, Look, Deliver(late), Dispatch];
    var g1 := Do(INIT, Hook);
    var g2 := Do(g1, Deliver(early));
    var g3 := Do(g2, Start);
    var g4 := Do(g3, Look);
    var g5 := Do(g4, Deliver(late));
    var g6 := Do(g5, Dispatch);
    var r1, r2, r3, r4, r5 := acts[1..], acts[2..], acts[3..], acts[4..], acts[5..];
    assert r1[1..] == r2 && r2[1..] == r3 && r3[1..] == r4 && r4[1..] == r5 && r5[1..] == [];
    assert Runs(g6, []) && End(g6, []) == g6;
    assert Runs(g5, r5) && End(g5, r5) == g6;
    assert Runs(g4, r4) && End(g4, r4) == g6;
    assert Runs(g3, r3) && End(g3, r3) == g6;
    assert Runs(g2, r2) && End(g2, r2) == g6;
    assert Runs(g1, r1) && End(g1, r1) == g6;
  }

  class GateObject {
    var started: bool
    var hooked: bool
    var buffered: seq<string>
    ghost var g: Gate

    ghost predicate Valid()
      reads this
    {
      g.started == started && g.hooked == hooked && g.buffered == buffered
    }

    constructor ()
      ensures Valid() && g == INIT
    {
      started, hooked, buffered, g := false, false, [], INIT;
    }

    method OnMessage()
      requires Valid()
      modifies this
      ensures Valid() && g == Do(old(g), Hook)
    {
      hooked := true;
      g := Do(g, Hook);
    }

    /** The region of start(): the gate is flipped and the buffer swapped out. */
    method Open() returns (drain: seq<string>)
      requires Valid() && g.startPc.NotStarted?
      modifies this
      ensures Valid() && g == Do(old(g), Start)
      ensures drain == InHand(g) && buffered == []
    {
      started := true;
      drain := buffered;
      buffered := [];
      g := Do(g, Start);
    }

    /** After the unlock: whether the loop over what was drained is entered; its
        turns are the Dispatch actions. */
    method FindCallback() returns (found: bool)
      requires Valid() && g.startPc.Swapped?
      modifies this
      ensures Valid() && g == Do(old(g), Look)
      ensures if found then InHand(g) == InHand(old(g)) else g.dropped == InHand(old(g))
    {
      found := hooked;
      g := Do(g, Look);
    }

    /** True when the frame is passed to the callback at once. */
    method Deliver(raw: string) returns (now: bool)
      requires Valid()
      modifies this
      ensures Valid() && g == Do(old(g), Action.Deliver(raw))
      ensures now <==> g.dispatched != old(g).dispatched
    {
      now := started && hooked;
      if !now {
        buffered := buffered + [raw];
      }
      g := Do(g, Action.Deliver(raw));
    }
  }
}
