// The server-initiated half of an HTTP session: the queue of HttpSessionTransport,
// the GET handlers that pop it and write an event stream each, and the client that
// reads one (src/http_server_host.cpp, src/http_client_transport.cpp).
module HttpStream {
  import opened Sse
  import opened SseWire
  import SseStandard

  /** A GET handler between turns, with a popped frame or heartbeat to write, or
      ended; a write that fails may have put a prefix of its bytes on the wire. */
  datatype Pc = Idle | Writing(item: Item) | Stopped(partial: string)

  /** `items` are the turns written in full. */
  datatype Stream = Stream(pc: Pc, items: seq<Item>)

  datatype Popped = Popped(stream: nat, frame: string)

  /** `pushed` and `popped` are history. */
  datatype Host = Host(
    queue: seq<string>,
    streams: map<nat, Stream>,
    pushed: seq<string>,
    popped: seq<Popped>)

  /** Push is the last region of send; Connect a GET; Pop and Beat the two ways
      wait_get_frame returns; Write and Break the two ways the write of it ends. */
  datatype Action =
    | Push(frame: string)
    | Connect(k: nat)
    | Pop(k: nat)
    | Beat(k: nat)
    | Write(k: nat)
    | Break(k: nat, n: nat)

  const INIT := Host([], map[], [], [])

  predicate IsIdle(h: Host, k: nat) {
    k in h.streams && h.streams[k].pc.Idle?
  }

  predicate IsWriting(h: Host, k: nat) {
    k in h.streams && h.streams[k].pc.Writing?
  }

  predicate Enabled(h: Host, a: Action) {
    match a
    case Push(_) => true
    case Connect(k) => k !in h.streams
    case Pop(k) => IsIdle(h, k) && h.queue != []
    case Beat(k) => IsIdle(h, k) && h.queue == []
    case Write(k) => IsWriting(h, k)
    case Break(k, n) => IsWriting(h, k) && n < |Encode(h.streams[k].pc.item)|
  }

  function Set(h: Host, k: nat, s: Stream): Host {
    h.(streams := h.streams[k := s])
  }

  function DoPop(h: Host, k: nat): Host
    requires Enabled(h, Pop(k))
  {
    Set(h, k, h.streams[k].(pc := Writing(FrameItem(h.queue[0]))))
      .(queue := h.queue[1..], popped := h.popped + [Popped(k, h.queue[0])])
  }

  function DoWrite(h: Host, k: nat): Host
    requires IsWriting(h, k)
  {
    Set(h, k, Stream(Idle, h.streams[k].items + [h.streams[k].pc.item]))
  }

  function DoBreak(h: Host, k: nat, n: nat): Host
    requires Enabled(h, Break(k, n))
  {
    Set(h, k, h.streams[k].(pc := Stopped(Encode(h.streams[k].pc.item)[..n])))
  }

  function Do(h: Host, a: Action): Host
    requires Enabled(h, a)
  {
    match a
    case Push(frame) => h.(queue := h.queue + [frame], pushed := h.pushed + [frame])
    case Connect(k) => Set(h, k, Stream(Idle, []))
    case Pop(k) => DoPop(h, k)
    case Beat(k) => Set(h, k, h.streams[k].(pc := Writing(Heartbeat)))
    case Write(k) => DoWrite(h, k)
    case Break(k, n) => DoBreak(h, k, n)
  }

  predicate Runs(h: Host, acts: seq<Action>)
    decreases |acts|
  {
    acts == [] || (Enabled(h, acts[0]) && Runs(Do(h, acts[0]), acts[1..]))
  }

  function End(h: Host, acts: seq<Action>): Host
    requires Runs(h, acts)
    decreases |acts|
  {
    if acts == [] then h else End(Do(h, acts[0]), acts[1..])
  }

  /** The bytes a stream has put on its connection. */
  function Wire(s: Stream): string {
    EncodeAll(s.items) + if s.pc.Stopped? then s.pc.partial else ""
  }

  function AllFrames(popped: seq<Popped>): seq<string> {
    seq(|popped|, i requires 0 <= i < |popped| => popped[i].frame)
  }

  /** The frames stream k popped. */
  function Of(popped: seq<Popped>, k: nat): seq<string> {
    if popped == [] then []
    else
      var last := popped[|popped| - 1];
      Of(popped[..|popped| - 1], k) + if last.stream == k then [last.frame] else []
  }

  /** The frame a stream has popped and not yet written in full. */
  ghost predicate Accounts(s: Stream, frames: seq<string>) {
    match s.pc
    case Idle => frames == Frames(s.items)
    case Writing(item) => frames == Frames(s.items + [item])
    case Stopped(partial) =>
      exists item, n :: 0 <= n < |Encode(item)| && partial == Encode(item)[..n] && frames == Frames(s.items + [item])
  }

  ghost predicate Inv(h: Host) {
    && h.pushed == AllFrames(h.popped) + h.queue
    && (forall k :: k !in h.streams ==> Of(h.popped, k) == [])
    && (forall k :: k in h.streams ==> Accounts(h.streams[k], Of(h.popped, k)))
  }

  lemma {:induction false} FramesAppend(items: seq<Item>, item: Item)
    ensures Frames(items + [item]) == Frames(items) + if item.FrameItem? then [item.frame] else []
  {
    if items == [] {
      assert items + [item] == [item] && [item][1..] == [];
    } else {
      FramesAppend(items[1..], item);
      assert (items + [item])[1..] == items[1..] + [item];
    }
  }

  lemma AllFramesAppend(popped: seq<Popped>, x: Popped)
    ensures AllFrames(popped + [x]) == AllFrames(popped) + [x.frame]
  {
  }

  lemma OfAppend(popped: seq<Popped>, x: Popped, k: nat)
    ensures Of(popped + [x], k) == Of(popped, k) + if x.stream == k then [x.frame] else []
  {
    assert (popped + [x])[..|popped|] == popped;
  }

  lemma PopAccounts(s: Stream, f: string, frames: seq<string>)
    requires s.pc.Idle? && Accounts(s, frames)
    ensures Accounts(s.(pc := Writing(FrameItem(f))), frames + [f])
  {
    FramesAppend(s.items, FrameItem(f));
  }

  lemma PopConserves(h: Host, k: nat)
    requires Enabled(h, Pop(k))
    ensures AllFrames(DoPop(h, k).popped) + DoPop(h, k).queue == AllFrames(h.popped) + h.queue
  {
    var frame, rest := h.queue[0], h.queue[1..];
    AllFramesAppend(h.popped, Popped(k, frame));
    assert h.queue == [frame] + rest;
    Regroup(AllFrames(h.popped), [frame], rest);
  }

  lemma PopOf(h: Host, k: nat)
    requires Enabled(h, Pop(k))
    ensures Of(DoPop(h, k).popped, k) == Of(h.popped, k) + [h.queue[0]]
    ensures forall j: nat :: j != k ==> Of(DoPop(h, k).popped, j) == Of(h.popped, j)
  {
    var x := Popped(k, h.queue[0]);
    OfAppend(h.popped, x, k);
    forall j: nat | j != k ensures Of(DoPop(h, k).popped, j) == Of(h.popped, j) {
      OfAppend(h.popped, x, j);
    }
  }

  lemma InvPop(h: Host, k: nat)
    requires Inv(h) && Enabled(h, Pop(k))
    ensures Inv(DoPop(h, k))
  {
    PopConserves(h, k);
    PopOf(h, k);
    PopAccounts(h.streams[k], h.queue[0], Of(h.popped, k));
  }

  lemma InvWrite(h: Host, k: nat)
    requires Inv(h) && IsWriting(h, k)
    ensures Inv(DoWrite(h, k))
  {
  }

  lemma InvBreak(h: Host, k: nat, n: nat)
    requires Inv(h) && Enabled(h, Break(k, n))
    ensures Inv(DoBreak(h, k, n))
  {
    assert h.streams[k].pc == Writing(h.streams[k].pc.item);
  }

  lemma InvBeat(h: Host, k: nat)
    requires Inv(h) && Enabled(h, Beat(k))
    ensures Inv(Do(h, Beat(k)))
  {
    FramesAppend(h.streams[k].items, Heartbeat);
  }

  lemma InvStep(h: Host, a: Action)
    requires Inv(h) && Enabled(h, a)
    ensures Inv(Do(h, a))
  {
    match a
    case Push(frame) =>
    case Connect(k) =>
    case Pop(k) => InvPop(h, k);
    case Beat(k) => InvBeat(h, k);
    case Write(k) => InvWrite(h, k);
    case Break(k, n) => InvBreak(h, k, n);
  }

  lemma {:induction false} InvRun(h: Host, acts: seq<Action>)
    requires Inv(h) && Runs(h, acts)
    ensures Inv(End(h, acts))
    decreases |acts|
  {
    if acts != [] {
      InvStep(h, acts[0]);
      InvRun(Do(h, acts[0]), acts[1..]);
    }
  }

  // ------------------------------------------------------------ theorems

  lemma InvInit()
    ensures Inv(INIT)
  {
  }

  /** No frame is lost or repeated between send and the GET handlers: those popped,
      in order, then those still queued are those pushed. */
  lemma QueueConserved(acts: seq<Action>)
    requires Runs(INIT, acts)
    ensures AllFrames(End(INIT, acts).popped) + End(INIT, acts).queue == End(INIT, acts).pushed
  {
    InvInit();
    InvRun(INIT, acts);
  }

  /** A heartbeat is sent only when every frame pushed has been popped. */
  lemma BeatsWhenDrained(acts: seq<Action>, k: nat)
    requires Runs(INIT, acts) && Enabled(End(INIT, acts), Beat(k))
    ensures AllFrames(End(INIT, acts).popped) == End(INIT, acts).pushed
  {
    QueueConserved(acts);
    assert AllFrames(End(INIT, acts).popped) + [] == AllFrames(End(INIT, acts).popped);
  }

  /** What a caller of send can rely on: its frame leaves the queue right after
      those pushed before it. */
  lemma PoppedInTurn(acts: seq<Action>, n: nat)
    requires Runs(INIT, acts) && n < |End(INIT, acts).popped|
    ensures n < |End(INIT, acts).pushed| && End(INIT, acts).popped[n].frame == End(INIT, acts).pushed[n]
  {
    var h := End(INIT, acts);
    QueueConserved(acts);
    assert (AllFrames(h.popped) + h.queue)[n] == h.popped[n].frame;
  }

  lemma {:induction false} PayloadsAppend(a: seq<Event>, b: seq<Event>)
    ensures SseStandard.Payloads(a + b) == SseStandard.Payloads(a) + SseStandard.Payloads(b)
  {
    if a == [] {
      assert a + b == b;
    } else {
      var head := if a[0].data != "" then [a[0].data] else [];
      PayloadsAppend(a[1..], b);
      assert (a + b)[0] == a[0] && (a + b)[1..] == a[1..] + b;
      Regroup(head, SseStandard.Payloads(a[1..]), SseStandard.Payloads(b));
    }
  }

  /** Fewer bytes give a prefix of the payloads. */
  lemma PrefixPayloads(p: string, whole: string)
    requires p <= whole
    ensures SseStandard.Payloads(Drain(p).events) <= SseStandard.Payloads(Drain(whole).events)
  {
    var rest := whole[|p|..];
    assert whole == p + rest;
    ChunkIndependence(p, rest);
    PayloadsAppend(Drain(p).events, Drain(Drain(p).tail + rest).events);
  }

  lemma EncodeOne(item: Item)
    ensures EncodeAll([item]) == Encode(item)
  {
    assert [item][1..] == [] && Encode(item) + "" == Encode(item);
  }

  lemma {:induction false} EncodeAppend(items: seq<Item>, item: Item)
    ensures EncodeAll(items + [item]) == EncodeAll(items) + Encode(item)
  {
    if items == [] {
      EncodeOne(item);
      assert items + [item] == [item] && EncodeAll(items) == "" && "" + Encode(item) == Encode(item);
    } else {
      EncodeAppend(items[1..], item);
      assert (items + [item])[0] == items[0] && (items + [item])[1..] == items[1..] + [item];
      Regroup(Encode(items[0]), EncodeAll(items[1..]), Encode(item));
    }
  }

  /** What is on the wire is the beginning of the encoding of turns whose frames
      are those the stream popped. */
  lemma WireOf(s: Stream, frames: seq<string>) returns (items: seq<Item>)
    requires Accounts(s, frames)
    ensures Wire(s) <= EncodeAll(items) && Frames(items) == frames
    ensures s.pc.Idle? ==> items == s.items
  {
    match s.pc
    case Idle =>
      items := s.items;
    case Writing(item) =>
      items := s.items + [item];
      EncodeAppend(s.items, item);
    case Stopped(partial) =>
      var item, n :| 0 <= n < |Encode(item)| && partial == Encode(item)[..n] && frames == Frames(s.items + [item]);
      items := s.items + [item];
      EncodeAppend(s.items, item);
  }

  lemma {:induction false} OfMembers(popped: seq<Popped>, k: nat, f: string)
    requires f in Of(popped, k)
    ensures f in AllFrames(popped)
  {
    var front, last := popped[..|popped| - 1], popped[|popped| - 1];
    if last.stream == k && f == last.frame {
      assert AllFrames(popped)[|popped| - 1] == f;
    } else {
      OfMembers(front, k, f);
      var i :| 0 <= i < |front| && AllFrames(front)[i] == f;
      assert AllFrames(popped)[i] == f;
    }
  }

  lemma {:induction false} FrameItems(items: seq<Item>, i: nat)
    requires i < |items| && items[i].FrameItem?
    ensures items[i].frame in Frames(items)
  {
    if i > 0 {
      FrameItems(items[1..], i - 1);
    }
  }

  ghost predicate AllLfFree(frames: seq<string>) {
    forall f :: f in frames ==> LfFree(f)
  }

  lemma ItemsOf(h: Host, k: nat, items: seq<Item>)
    requires Inv(h) && AllLfFree(h.pushed) && Frames(items) == Of(h.popped, k)
    ensures ItemsLfFree(items)
  {
    forall i | 0 <= i < |items| && items[i].FrameItem? ensures LfFree(items[i].frame) {
      FrameItems(items, i);
      OfMembers(h.popped, k, items[i].frame);
      assert items[i].frame in h.pushed;
    }
  }

  lemma BytesReceived(bytes: string, items: seq<Item>)
    requires ItemsLfFree(items) && bytes <= EncodeAll(items)
    ensures SseStandard.Payloads(Drain(bytes).events) <= Received(Frames(items))
    ensures bytes == EncodeAll(items) ==> SseStandard.Payloads(Drain(bytes).events) == Received(Frames(items))
  {
    StreamRead(items);
    PrefixPayloads(bytes, EncodeAll(items));
  }

  /** Whatever part of its stream has reached a client, however it is cut, and
      whatever heartbeats lie between: the frames delivered are a prefix of those
      its GET handler popped, in order, less what the line reader drops; and all of
      them once the handler is between turns and its bytes have arrived. */
  lemma ClientReceives(acts: seq<Action>, k: nat, chunks: seq<string>)
    requires Runs(INIT, acts) && AllLfFree(End(INIT, acts).pushed)
    requires k in End(INIT, acts).streams && Flatten(chunks) <= Wire(End(INIT, acts).streams[k])
    ensures var h := End(INIT, acts); var frames := Received(Of(h.popped, k));
      && SseStandard.Payloads(Feed(chunks).events) <= frames
      && (h.streams[k].pc.Idle? && Flatten(chunks) == Wire(h.streams[k])
          ==> SseStandard.Payloads(Feed(chunks).events) == frames)
  {
    InvInit();
    InvRun(INIT, acts);
    var h := End(INIT, acts);
    var items := WireOf(h.streams[k], Of(h.popped, k));
    ItemsOf(h, k, items);
    AnyChunking(chunks);
    BytesReceived(Flatten(chunks), items);
    if h.streams[k].pc.Idle? {
      assert Wire(h.streams[k]) == EncodeAll(items) + "" == EncodeAll(items);
    }
  }

  /** Clean frames are delivered as they were popped. */
  lemma CleanReceived(frames: seq<string>)
    requires forall f :: f in frames ==> Survives(f)
    ensures Received(frames) == frames
  {
    ReceivedExactly(frames);
  }

  /** With one GET stream the frames delivered are a prefix of those pushed. */
  lemma OneStream(acts: seq<Action>, k: nat, chunks: seq<string>)
    requires Runs(INIT, acts) && AllLfFree(End(INIT, acts).pushed)
    requires k in End(INIT, acts).streams && Flatten(chunks) <= Wire(End(INIT, acts).streams[k])
    requires forall i :: 0 <= i < |End(INIT, acts).popped| ==> End(INIT, acts).popped[i].stream == k
    requires forall f :: f in End(INIT, acts).pushed ==> Survives(f)
    ensures SseStandard.Payloads(Feed(chunks).events) <= End(INIT, acts).pushed
  {
    var h := End(INIT, acts);
    ClientReceives(acts, k, chunks);
    QueueConserved(acts);
    OfAll(h.popped, k);
    CleanReceived(AllFrames(h.popped));
  }

  lemma {:induction false} OfAll(popped: seq<Popped>, k: nat)
    requires forall i :: 0 <= i < |popped| ==> popped[i].stream == k
    ensures Of(popped, k) == AllFrames(popped)
  {
    if popped != [] {
      var front := popped[..|popped| - 1];
      OfAll(front, k);
      assert AllFrames(popped) == AllFrames(front) + [popped[|popped| - 1].frame];
    }
  }

  // -------------------------------------------------------------- object

  /** The queue under get_mu_. */
  class GetQueue {
    var queue: seq<string>
    ghost var h: Host

    ghost predicate Valid()
      reads this
    {
      h.queue == queue
    }

    constructor ()
      ensures Valid() && h == INIT
    {
      queue, h := [], INIT;
    }

    method PushFrame(frame: string)
      requires Valid()
      modifies this
      ensures Valid() && h == Do(old(h), Push(frame))
    {
      queue := queue + [frame];
      h := Do(h, Push(frame));
    }

    /** wait_get_frame once it has stopped waiting, and the bytes the handler is
        then to write. */
    method NextBytes(k: nat) returns (bytes: string)
      requires Valid() && IsIdle(h, k)
      modifies this
      ensures Valid() && h == Do(old(h), if old(queue) == [] then Beat(k) else Pop(k))
      ensures IsWriting(h, k) && bytes == Encode(h.streams[k].pc.item)
    {
      if queue == [] {
        h := Do(h, Beat(k));
        bytes := ":\n\n";
      } else {
        h := Do(h, Pop(k));
        var frame := queue[0];
        queue := queue[1..];
        bytes := "data: " + frame + "\n\n";
      }
    }
  }
}
