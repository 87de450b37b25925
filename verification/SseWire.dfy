// The server's event-stream writer (the GET handler of src/http_server_host.cpp
// and the queue it pops) against the client's drain_sse.
module SseWire {
  import opened Sse
  import opened Wrappers
  import Decimal
  import Json
  import SseStandard

  /** One turn of the GET handler: a frame, or a heartbeat after 15 idle seconds. */
  datatype Item = Heartbeat | FrameItem(frame: string)

  function Encode(item: Item): string {
    match item
    case Heartbeat => ":\n\n"
    case FrameItem(f) => "data: " + f + "\n\n"
  }

  function EncodeAll(items: seq<Item>): string {
    if items == [] then "" else Encode(items[0]) + EncodeAll(items[1..])
  }

  function Frames(items: seq<Item>): seq<string> {
    if items == [] then []
    else (if items[0].FrameItem? then [items[0].frame] else []) + Frames(items[1..])
  }

  predicate LfFree(f: string) {
    '\n' !in f
  }

  predicate ItemsLfFree(items: seq<Item>) {
    forall i :: 0 <= i < |items| && items[i].FrameItem? ==> LfFree(items[i].frame)
  }

  /** The frames the line reader keeps whole. */
  predicate Survives(f: string) {
    f != "" && f[|f| - 1] != '\r'
  }

  // ---------------------------------------------------- one event's bytes

  lemma ScanOneLine(x: string, rest: string)
    requires LfFree(x)
    ensures Scan(x + "\n\n" + rest, 0) == At(|x|, 2)
  {
    var s := x + "\n\n" + rest;
    forall j | 0 <= j < |x| ensures !EndsAt(s, j) {
      assert s[j] in x;
      assert j + 1 < |x| ==> s[j + 1] in x;
    }
    assert LfLfAt(s, |x|);
    ScanDown(s, |x|, 2, |x|);
  }

  lemma ReadOneLine(x: string)
    requires LfFree(x)
    ensures Block(x) == Fired(Apply(BLANK, x))
  {
    assert IndexOf(x, '\n') == |x|;
    assert SplitLf(x) == [x] && [x][1..] == [];
    assert Interpret([x], BLANK) == Interpret([], Apply(BLANK, x));
  }

  /** An event of one line is found, read and cut off. */
  lemma OneLine(x: string, rest: string)
    requires LfFree(x)
    ensures Drain(x + "\n\n" + rest) == Drained(Fired(Apply(BLANK, x)) + Drain(rest).events, Drain(rest).tail)
  {
    var s := x + "\n\n" + rest;
    ScanOneLine(x, rest);
    ReadOneLine(x);
    assert s[..|x|] == x && s[|x| + 2..] == rest;
  }

  /** A line that says nothing to the client fires nothing. */
  lemma SilentLine(x: string, rest: string)
    requires LfFree(x) && Apply(BLANK, x) == BLANK
    ensures Drain(x + "\n\n" + rest) == Drain(rest)
  {
    OneLine(x, rest);
    BlankFiresNothing(Drain(rest));
  }

  lemma BlankFiresNothing(d: Drained)
    ensures Drained(Fired(BLANK) + d.events, d.tail) == d
  {
    assert [] + d.events == d.events;
  }

  lemma ReadHeartbeat(rest: string)
    ensures Drain(Encode(Heartbeat) + rest) == Drain(rest)
  {
    var x := [':'];
    assert Apply(BLANK, x) == BLANK;
    assert Encode(Heartbeat) + rest == x + "\n\n" + rest;
    SilentLine(x, rest);
  }

  /** A field as the specification writes it: name, colon, space, value. */
  lemma FieldLine(name: string, v: string)
    requires name != "" && ':' !in name
    ensures ParseLine(name + ": " + v) == Field(name, StripCr(v))
  {
    var line := name + ": " + StripCr(v);
    FieldStripped(name, v);
    FieldColon(name, StripCr(v));
    assert StripSpace(" " + StripCr(v)) == StripCr(v);
  }

  lemma FieldStripped(name: string, v: string)
    ensures StripCr(name + ": " + v) == name + ": " + StripCr(v)
  {
    var head := name + ": ";
    assert head[|head| - 1] == ' ';
  }

  lemma FieldColon(name: string, value: string)
    requires ':' !in name
    ensures var line := name + ": " + value;
      IndexOf(line, ':') == |name| && line[..|name|] == name && line[|name| + 1..] == " " + value
  {
    var line := name + ": " + value;
    forall j | 0 <= j < |name| ensures line[j] != ':' {
      assert line[j] == name[j];
    }
    assert line[|name|] == ':';
  }

  lemma ReadDataLine(f: string)
    ensures Apply(BLANK, "data: " + f) == BLANK.(data := StripCr(f))
  {
    var name := "data";
    FieldLine(name, f);
    assert name + ": " == "data: ";
    assert "" + StripCr(f) == StripCr(f);
  }

  lemma IdLine(e: Event, v: string)
    ensures Apply(e, "id: " + v) == e.(id := Some(StripCr(v)))
  {
    var name := "id";
    FieldLine(name, v);
    assert name + ": " == "id: ";
  }

  /** A printed delay is taken if and only if it is an int and not negative. */
  lemma RetryLine(e: Event, n: int)
    ensures Apply(e, "retry: " + Decimal.ToString(n)) ==
      if 0 <= n && Json.IsInt32(n) then e.(retry := Some(n)) else e
  {
    var name, v := "retry", Decimal.ToString(n);
    FieldLine(name, v);
    assert name + ": " == "retry: ";
    assert v + "" == v && StripCr(v) == v;
    StoiPrinted(n, "");
    RetryField(e, v);
  }

  lemma RetryField(e: Event, v: string)
    ensures ApplyField(e, Field("retry", v)) ==
      if Stoi(v).Some? && Stoi(v).value >= 0 then e.(retry := Stoi(v)) else e
  {
  }

  lemma ReadFrame(f: string, rest: string)
    requires LfFree(f)
    ensures var e := BLANK.(data := StripCr(f));
      Drain(Encode(FrameItem(f)) + rest) == Drained(Fired(e) + Drain(rest).events, Drain(rest).tail)
  {
    assert Encode(FrameItem(f)) + rest == ("data: " + f) + "\n\n" + rest;
    ReadDataLine(f);
    OneLine("data: " + f, rest);
  }

  // -------------------------------------------------- the whole stream

  /** What the client makes of the frames: less a final carriage return each, and
      without the empty ones. */
  function Received(frames: seq<string>): seq<string> {
    if frames == [] then []
    else (if StripCr(frames[0]) != "" then [StripCr(frames[0])] else []) + Received(frames[1..])
  }

  lemma {:induction false} StreamRead(items: seq<Item>)
    requires ItemsLfFree(items)
    ensures var d := Drain(EncodeAll(items)); d.tail == "" && SseStandard.Payloads(d.events) == Received(Frames(items))
  {
    if items != [] {
      var rest := EncodeAll(items[1..]);
      StreamRead(items[1..]);
      match items[0]
      case Heartbeat =>
        ReadHeartbeat(rest);
        assert Frames(items) == Frames(items[1..]);
      case FrameItem(f) =>
        ReadFrame(f, rest);
        SseStandard.PayloadsOfBlock(BLANK.(data := StripCr(f)), Drain(rest).events);
        assert Frames(items)[1..] == Frames(items[1..]);
    }
  }

  lemma {:induction false} ReceivedExactly(frames: seq<string>)
    ensures |Received(frames)| <= |frames|
    ensures Received(frames) == frames <==> forall i :: 0 <= i < |frames| ==> Survives(frames[i])
  {
    if frames != [] {
      var f, rest := frames[0], frames[1..];
      ReceivedExactly(rest);
      assert forall i :: 1 <= i < |frames| ==> frames[i] == rest[i - 1];
      if Survives(f) {
        assert Received(frames)[1..] == Received(rest);
        assert forall i :: 0 <= i < |rest| ==> rest[i] == frames[i + 1];
      } else if StripCr(f) != "" {
        assert Received(frames)[0] != frames[0];
      } else {
        assert |Received(frames)| < |frames|;
      }
    }
  }

  /** Server to client: for any interleaving of heartbeats and newline-free frames
      and any cutting of the bytes into chunks, the client delivers exactly the
      frames the handler wrote, in order, if and only if none is empty or ends in
      a carriage return. */
  lemma RoundTrip(items: seq<Item>, chunks: seq<string>)
    requires ItemsLfFree(items) && Flatten(chunks) == EncodeAll(items)
    ensures Feed(chunks).tail == ""
    ensures SseStandard.Payloads(Feed(chunks).events) == Frames(items)
      <==> forall i :: 0 <= i < |Frames(items)| ==> Survives(Frames(items)[i])
  {
    AnyChunking(chunks);
    StreamRead(items);
    ReceivedExactly(Frames(items));
  }
}
