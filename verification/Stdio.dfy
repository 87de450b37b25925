// Newline framing over a byte stream: src/stdio_transport.cpp. A string stands
// for a byte string.
module Stdio {
  import opened Sse

  // ------------------------------------------- the stream as a whole

  /** What a stream of bytes amounts to: the frames it delivers, and either the
      unfinished line or the disconnect a too long line causes. */
  datatype Reading = Open(frames: seq<string>, partial: string) | TooLong(frames: seq<string>)

  /** A finished line: less one carriage return, nothing if that leaves nothing. */
  function Line(raw: string): seq<string> {
    if StripCr(raw) == "" then [] else [StripCr(raw)]
  }

  function Prepend(frames: seq<string>, r: Reading): Reading {
    match r
    case Open(fs, partial) => Open(frames + fs, partial)
    case TooLong(fs) => TooLong(frames + fs)
  }

  /** The stream cut at its line feeds, up to the first segment, finished or not,
      whose raw length exceeds the limit. */
  function Read(input: string, limit: nat): Reading {
    var i := IndexOf(input, '\n');
    if i > limit then TooLong([])
    else if i == |input| then Open([], input)
    else Prepend(Line(input[..i]), Read(input[i + 1..], limit))
  }

  // ----------------------------------------------- chunk by chunk

  /** Going on from a reading with more bytes. */
  function More(r: Reading, input: string, limit: nat): Reading {
    match r
    case Open(frames, partial) => Prepend(frames, Read(partial + input, limit))
    case TooLong(_) => r
  }

  lemma PrependTwice(a: seq<string>, b: seq<string>, r: Reading)
    ensures Prepend(a, Prepend(b, r)) == Prepend(a + b, r)
  {
    assert a + (b + r.frames) == (a + b) + r.frames;
  }

  lemma PrependMore(a: seq<string>, r: Reading, input: string, limit: nat)
    ensures More(Prepend(a, r), input, limit) == Prepend(a, More(r, input, limit))
  {
    if r.Open? {
      PrependTwice(a, r.frames, Read(r.partial + input, limit));
    }
  }

  lemma PrependNothing(r: Reading)
    ensures Prepend([], r) == r
  {
    assert [] + r.frames == r.frames;
  }

  /** A finished first line, whatever follows. */
  lemma ReadLine(line: string, rest: string, limit: nat)
    requires '\n' !in line && |line| <= limit
    ensures Read(line + "\n" + rest, limit) == Prepend(Line(line), Read(rest, limit))
  {
    var s := line + "\n" + rest;
    assert forall j :: 0 <= j < |line| ==> s[j] in line;
    assert s[|line|] == '\n' && IndexOf(s, '\n') == |line|;
    assert s[..|line|] == line && s[|line| + 1..] == rest;
  }

  lemma ReadTooLong(line: string, rest: string, limit: nat)
    requires '\n' !in line && |line| > limit
    ensures Read(line + rest, limit) == TooLong([])
  {
    assert forall j :: 0 <= j < |line| ==> (line + rest)[j] in line;
  }

  lemma ReadUnfinished(line: string, limit: nat)
    requires '\n' !in line && |line| <= limit
    ensures Read(line, limit) == Open([], line)
  {
    assert IndexOf(line, '\n') == |line|;
  }

  lemma CutLine(a: string, i: nat, b: string)
    requires i < |a| && a[i] == '\n'
    ensures a + b == a[..i] + "\n" + (a[i + 1..] + b)
  {
    assert a == a[..i] + "\n" + a[i + 1..];
  }

  lemma LongLine(a: string, b: string, limit: nat)
    requires IndexOf(a, '\n') > limit
    ensures Read(a, limit) == Read(a + b, limit) == TooLong([])
  {
    var i := IndexOf(a, '\n');
    assert a + b == a[..i] + (a[i..] + b);
    ReadTooLong(a[..i], a[i..] + b, limit);
  }

  /** Reading a and going on with b is reading a + b at once. */
  lemma {:induction false} ChunkIndependence(a: string, b: string, limit: nat)
    ensures Read(a + b, limit) == More(Read(a, limit), b, limit)
    decreases |a|
  {
    var i := IndexOf(a, '\n');
    if i > limit {
      LongLine(a, b, limit);
    } else if i == |a| {
      PrependNothing(Read(a + b, limit));
    } else {
      CutLine(a, i, b);
      ReadLine(a[..i], a[i + 1..] + b, limit);
      ChunkIndependence(a[i + 1..], b, limit);
      PrependMore(Line(a[..i]), Read(a[i + 1..], limit), b, limit);
    }
  }

  /** The unfinished line never exceeds the limit and holds no line feed. */
  lemma {:induction false} PartialBounded(input: string, limit: nat)
    ensures Read(input, limit).Open? ==>
      |Read(input, limit).partial| <= limit && '\n' !in Read(input, limit).partial
    decreases |input|
  {
    var i := IndexOf(input, '\n');
    if i < |input| {
      PartialBounded(input[i + 1..], limit);
    }
  }

  lemma MoreThenMore(r: Reading, a: string, b: string, limit: nat)
    ensures More(r, a + b, limit) == More(More(r, a, limit), b, limit)
  {
    if r.Open? {
      assert r.partial + (a + b) == (r.partial + a) + b;
      ChunkIndependence(r.partial + a, b, limit);
      PrependMore(r.frames, Read(r.partial + a, limit), b, limit);
    }
  }

  /** One byte more, on a buffer within the limit. */
  lemma OneByte(frames: seq<string>, partial: string, c: char, limit: nat)
    requires |partial| <= limit && '\n' !in partial
    ensures More(Open(frames, partial), [c], limit) ==
      if c == '\n' then Open(frames + Line(partial), "")
      else if |partial| >= limit then TooLong(frames)
      else Open(frames, partial + [c])
  {
    PrependNothing(Read("", limit));
    if c == '\n' {
      assert partial + [c] == partial + "\n" + "";
      ReadLine(partial, "", limit);
      ReadUnfinished("", limit);
      assert frames + (Line(partial) + []) == frames + Line(partial);
    } else if |partial| >= limit {
      assert partial + [c] == (partial + [c]) + "";
      ReadTooLong(partial + [c], "", limit);
      assert frames + [] == frames;
    } else {
      ReadUnfinished(partial + [c], limit);
      assert frames + [] == frames;
    }
  }

  // --------------------------------------------------------- read_loop

  /** What one poll and read give the loop: EINTR and EAGAIN are Retry. */
  datatype Got = Data(chunk: string) | Retry | Eof | Failed

  /** How the loop ended, or that it would go on. */
  datatype Ending = EndOfInput | ReadError | FrameTooLong | Reading_

  /** The bytes read up to the first end of input or error. */
  function Bytes(got: seq<Got>): string {
    if got == [] || got[0].Eof? || got[0].Failed? then ""
    else (if got[0].Data? then got[0].chunk else "") + Bytes(got[1..])
  }

  predicate Stops(g: Got) {
    g == Eof || g == Failed
  }

  /** How reading ends when no line is too long. */
  function HowEnds(got: seq<Got>): Ending {
    if got == [] then Reading_
    else if got[0].Eof? then EndOfInput
    else if got[0].Failed? then ReadError
    else HowEnds(got[1..])
  }

  class Reader {
    const limit: nat
    var buffer: string
    var delivered: seq<string>

    constructor (maxFrameBytes: nat)
      ensures limit == maxFrameBytes && buffer == "" && delivered == []
    {
      limit := maxFrameBytes;
      buffer := "";
      delivered := [];
    }

    /** One byte of a chunk; false when the line has grown too long. */
    method Byte(c: char) returns (ok: bool)
      requires |buffer| <= limit && '\n' !in buffer
      modifies this
      ensures |buffer| <= limit && '\n' !in buffer
      ensures More(Open(old(delivered), old(buffer)), [c], limit)
        == if ok then Open(delivered, buffer) else TooLong(delivered)
    {
      OneByte(delivered, buffer, c, limit);
      if c == '\n' {
        var line := buffer;
        if line != "" && line[|line| - 1] == '\r' {
          line := line[..|line| - 1];
        }
        if line != "" {
          delivered := delivered + [line];
        }
        buffer := "";
        assert delivered == old(delivered) + Line(old(buffer));
      } else {
        if |buffer| >= limit {
          return false;
        }
        buffer := buffer + [c];
      }
      return true;
    }

    /** The inner loop over one chunk's bytes. */
    method Consume(chunk: string) returns (ok: bool)
      requires |buffer| <= limit && '\n' !in buffer
      modifies this
      ensures |buffer| <= limit && '\n' !in buffer
      ensures More(Open(old(delivered), old(buffer)), chunk, limit)
        == if ok then Open(delivered, buffer) else TooLong(delivered)
    {
      ghost var start := Open(delivered, buffer);
      MoreNothing(start, limit);
      for i := 0 to |chunk|
        invariant |buffer| <= limit && '\n' !in buffer
        invariant More(start, chunk[..i], limit) == Open(delivered, buffer)
      {
        MoreThenMore(start, chunk[..i], [chunk[i]], limit);
        assert chunk[..i + 1] == chunk[..i] + [chunk[i]];
        ok := Byte(chunk[i]);
        if !ok {
          assert chunk == chunk[..i + 1] + chunk[i + 1..];
          MoreThenMore(start, chunk[..i + 1], chunk[i + 1..], limit);
          return;
        }
      }
      assert chunk[..|chunk|] == chunk;
      ok := true;
    }

    /** The outer loop, on a fresh reader: whatever the sizes of the reads, the
        frames delivered are those of the bytes taken together. */
    method ReadLoop(got: seq<Got>) returns (ending: Ending)
      requires buffer == "" && delivered == []
      modifies this
      ensures |buffer| <= limit
      ensures Read(Bytes(got), limit)
        == if ending.FrameTooLong? then TooLong(delivered) else Open(delivered, buffer)
      ensures !ending.FrameTooLong? ==> ending == HowEnds(got)
    {
      ending := Reading_;
      MoreFromStart(Bytes(got), limit);
      assert got[0..] == got;
      for i := 0 to |got|
        invariant |buffer| <= limit && '\n' !in buffer
        invariant ending.Reading_? && HowEnds(got[i..]) == HowEnds(got)
        invariant More(Open(delivered, buffer), Bytes(got[i..]), limit) == Read(Bytes(got), limit)
      {
        BytesStep(got, i);
        match got[i] {
          case Retry =>
          case Eof =>
            MoreNothing(Open(delivered, buffer), limit);
            return EndOfInput;
          case Failed =>
            MoreNothing(Open(delivered, buffer), limit);
            return ReadError;
          case Data(chunk) =>
            MoreThenMore(Open(delivered, buffer), chunk, Bytes(got[i + 1..]), limit);
            var ok := Consume(chunk);
            if !ok {
              return FrameTooLong;
            }
        }
      }
      MoreNothing(Open(delivered, buffer), limit);
    }
  }

  lemma BytesStep(got: seq<Got>, i: nat)
    requires i < |got|
    ensures Bytes(got[i..]) == match got[i]
      case Data(chunk) => chunk + Bytes(got[i + 1..])
      case Retry => Bytes(got[i + 1..])
      case _ => ""
    ensures HowEnds(got[i..]) == match got[i]
      case Eof => EndOfInput
      case Failed => ReadError
      case _ => HowEnds(got[i + 1..])
  {
    assert got[i..][1..] == got[i + 1..];
    assert "" + Bytes(got[i + 1..]) == Bytes(got[i + 1..]);
  }

  /** An unfinished line within the limit reads as itself. */
  lemma MoreNothing(r: Reading, limit: nat)
    requires r.Open? && |r.partial| <= limit && '\n' !in r.partial
    ensures More(r, "", limit) == r
  {
    assert r.partial + "" == r.partial && r.frames + [] == r.frames;
    assert IndexOf(r.partial, '\n') == |r.partial|;
  }

  lemma MoreFromStart(input: string, limit: nat)
    ensures More(Open([], ""), input, limit) == Read(input, limit)
  {
    assert "" + input == input;
    assert [] + Read(input, limit).frames == Read(input, limit).frames;
  }

  // --------------------------------------------------------------- send

  /** What one write makes of the bytes offered: it takes at most n, or fails. */
  datatype Wrote = Took(n: nat) | Interrupted | Error

  datatype Status = Sent | NotConnected | InvalidFrame | IoError | Blocked

  function Wire(frames: seq<string>): string {
    if frames == [] then "" else Wire(frames[..|frames| - 1]) + frames[|frames| - 1] + "\n"
  }

  predicate Progress(script: seq<Wrote>) {
    forall i :: 0 <= i < |script| ==> script[i].Interrupted? || (script[i].Took? && script[i].n > 0)
  }

  function Writes(script: seq<Wrote>): nat {
    if script == [] then 0 else Writes(script[..|script| - 1]) + if script[|script| - 1].Took? then 1 else 0
  }

  class Writer {
    var running: bool
    var wire: string
    ghost var sent: seq<string>  // the frames whose send succeeded, in lock order

    constructor ()
      ensures running && wire == "" && sent == []
    {
      running := true;
      wire := "";
      sent := [];
    }

    /** The body under write_mutex_: the script is what the successive write calls
        answer, and Blocked means it ran out. Short and interrupted writes only
        delay: when each write takes something, a frame needs at most one write per
        byte and one for the line feed. */
    method Send(frame: string, script: seq<Wrote>) returns (status: Status)
      modifies this`wire, this`sent
      ensures sent == if status.Sent? then old(sent) + [frame] else old(sent)
      ensures old(wire == Wire(sent)) && !status.IoError? && !status.Blocked? ==> wire == Wire(sent)
      ensures status.NotConnected? <==> !running
      ensures status.InvalidFrame? <==> running && '\n' in frame
      ensures status.NotConnected? || status.InvalidFrame? ==> wire == old(wire)
      ensures status.Sent? ==> wire == old(wire) + frame + "\n"
      ensures status.IoError? || status.Blocked? ==> exists k :: 0 <= k <= |frame| && wire == old(wire) + frame[..k]
      ensures Progress(script) ==> !status.IoError?
      ensures Progress(script) && Writes(script) > |frame| ==> !status.Blocked?
    {
      if !running {
        return NotConnected;
      }
      if '\n' in frame {
        return InvalidFrame;
      }
      var done := 0;
      var i := 0;
      assert wire == wire + frame[..0];
      assert script[..|script|] == script;
      while done < |frame| && i < |script|
        invariant 0 <= i <= |script| && 0 <= done <= |frame|
        invariant wire == old(wire) + frame[..done] && sent == old(sent)
        invariant Progress(script) ==> Writes(script[..i]) <= done
        decreases |script| - i
      {
        assert script[..i + 1][..i] == script[..i];
        match script[i] {
          case Interrupted =>
          case Error => return IoError;
          case Took(n) =>
            var taken := if n < |frame| - done then n else |frame| - done;
            wire := wire + frame[done..done + taken];
            assert frame[..done + taken] == frame[..done] + frame[done..done + taken];
            done := done + taken;
        }
        i := i + 1;
      }
      if done < |frame| {
        return Blocked;
      }
      assert frame[..done] == frame;
      while i < |script|
        invariant 0 <= i <= |script|
        invariant wire == old(wire) + frame[..done] && sent == old(sent)
        invariant Progress(script) ==> Writes(script[..i]) <= |frame|
        decreases |script| - i
      {
        assert script[..i + 1][..i] == script[..i];
        match script[i] {
          case Interrupted =>
          case Error => return IoError;
          case Took(n) =>
            if n == 0 {
              return IoError;
            }
            wire := wire + "\n";
            sent := sent + [frame];
            assert sent[..|sent| - 1] == old(sent);
            return Sent;
        }
        i := i + 1;
      }
      return Blocked;
    }
  }

  // ---------------------------------------------------------- round trip

  /** The frames the line format keeps whole. */
  predicate Survives(f: string, limit: nat) {
    f != "" && f[|f| - 1] != '\r' && |f| <= limit
  }

  predicate LfFree(frames: seq<string>) {
    forall i :: 0 <= i < |frames| ==> '\n' !in frames[i]
  }

  /** Reading on over one whole frame and its line feed. */
  lemma MoreFrame(frames: seq<string>, f: string, limit: nat)
    requires '\n' !in f
    ensures More(Open(frames, ""), f + "\n", limit) ==
      if |f| > limit then TooLong(frames) else Open(frames + Line(f), "")
  {
    var lf := "\n";
    assert "" + (f + lf) == f + lf && f + lf == f + lf + "";
    assert frames + [] == frames;
    if |f| > limit {
      ReadTooLong(f, "\n", limit);
    } else {
      ReadLine(f, "", limit);
      ReadUnfinished("", limit);
      assert frames + (Line(f) + []) == frames + Line(f);
    }
  }

  predicate AllSurvive(frames: seq<string>, limit: nat) {
    forall i :: 0 <= i < |frames| ==> Survives(frames[i], limit)
  }

  /** One frame more on the wire. */
  lemma WireStep(front: seq<string>, f: string, limit: nat)
    requires '\n' !in f
    requires Read(Wire(front), limit).Open? ==> Read(Wire(front), limit).partial == ""
    ensures var r := Read(Wire(front), limit);
      Read(Wire(front + [f]), limit) ==
        if r.TooLong? then r else if |f| > limit then TooLong(r.frames) else Open(r.frames + Line(f), "")
  {
    var r := Read(Wire(front), limit);
    assert (front + [f])[..|front|] == front;
    assert Wire(front + [f]) == Wire(front) + (f + "\n");
    ChunkIndependence(Wire(front), f + "\n", limit);
    if r.Open? {
      MoreFrame(r.frames, f, limit);
    }
  }

  lemma {:induction false} WireReads(frames: seq<string>, limit: nat)
    requires LfFree(frames)
    ensures |Read(Wire(frames), limit).frames| <= |frames|
    ensures Read(Wire(frames), limit).Open? ==> Read(Wire(frames), limit).partial == ""
  {
    if frames == [] {
      ReadUnfinished("", limit);
    } else {
      var front, f := frames[..|frames| - 1], frames[|frames| - 1];
      assert frames == front + [f];
      WireReads(front, limit);
      WireStep(front, f, limit);
    }
  }

  /** The receiver of a wire that holds these frames, in lock order, delivers
      exactly them, whatever the chunks, if and only if each is nonempty, within
      the size limit and does not end in a carriage return. */
  lemma {:induction false} RoundTrip(frames: seq<string>, limit: nat)
    requires LfFree(frames)
    ensures Read(Wire(frames), limit) == Open(frames, "") <==> AllSurvive(frames, limit)
  {
    if frames == [] {
      ReadUnfinished("", limit);
    } else {
      var front, f := frames[..|frames| - 1], frames[|frames| - 1];
      assert frames == front + [f];
      RoundTrip(front, limit);
      WireReads(front, limit);
      WireStep(front, f, limit);
      SameEnd(Read(Wire(front), limit).frames, Line(f), front, f);
      assert AllSurvive(frames, limit) <==> AllSurvive(front, limit) && Survives(f, limit);
    }
  }

  lemma SameEnd(a: seq<string>, line: seq<string>, front: seq<string>, f: string)
    requires |a| <= |front| && |line| <= 1
    ensures a + line == front + [f] <==> a == front && line == [f]
  {
    if a + line == front + [f] {
      assert a == (a + line)[..|front|] == (front + [f])[..|front|];
      assert (a + line)[|front|] == f;
    }
  }

  // ------------------------------------------------------------- CRLF lines

  lemma StripsOne(f: string)
    requires f == "" || f[|f| - 1] != '\r'
    ensures Line(f) == if f == "" then [] else [f]
    ensures Line(f + "\r") == if f == "" then [] else [f]
  {
    assert (f + "\r")[..|f|] == f;
  }

  /** A line ended by CRLF delivers what the line ended by LF does, so long as the
      carriage return too is within the limit. */
  lemma CrLfLine(f: string, rest: string, limit: nat)
    requires '\n' !in f && f != "" && f[|f| - 1] != '\r'
    ensures |f| + 1 <= limit ==> Read(f + "\r\n" + rest, limit) == Prepend([f], Read(rest, limit))
    ensures |f| + 1 > limit ==> Read(f + "\r\n" + rest, limit) == TooLong([])
  {
    var raw, cr := f + "\r", "\r";
    assert f + "\r\n" + rest == raw + "\n" + rest == raw + ("\n" + rest);
    assert '\n' !in raw by {
      assert cr[0] == '\r' && '\n' !in cr;
    }
    StripsOne(f);
    if |raw| <= limit {
      ReadLine(raw, rest, limit);
    } else {
      ReadTooLong(raw, "\n" + rest, limit);
    }
  }

  /** A finished line within the limit delivers one frame, itself less one carriage
      return, and nothing if and only if it is empty or just that. */
  lemma DeliversNothing(raw: string, limit: nat)
    requires '\n' !in raw && |raw| <= limit
    ensures Read(raw + "\n", limit).frames == [] <==> raw == "" || raw == "\r"
    ensures Read(raw + "\n", limit).Open? && Read(raw + "\n", limit).partial == ""
    ensures |Read(raw + "\n", limit).frames| <= 1
  {
    assert raw + "\n" == raw + "\n" + "";
    ReadLine(raw, "", limit);
    ReadUnfinished("", limit);
    assert Line(raw) + [] == Line(raw);
  }

  /** A wire on which each line ends in LF or CRLF, as its sender likes. */
  function MixedWire(frames: seq<string>, crlf: seq<bool>): string
    requires |crlf| == |frames|
  {
    if frames == [] then ""
    else frames[0] + (if crlf[0] then "\r\n" else "\n") + MixedWire(frames[1..], crlf[1..])
  }

  /** It delivers the same frames, in order. */
  lemma {:induction false} MixedRoundTrip(frames: seq<string>, crlf: seq<bool>, limit: nat)
    requires |crlf| == |frames| && LfFree(frames)
    requires forall i :: 0 <= i < |frames| ==> Survives(frames[i], limit) && (crlf[i] ==> |frames[i]| + 1 <= limit)
    ensures Read(MixedWire(frames, crlf), limit) == Open(frames, "")
  {
    if frames == [] {
      ReadUnfinished("", limit);
    } else {
      var f, rest := frames[0], MixedWire(frames[1..], crlf[1..]);
      MixedRoundTrip(frames[1..], crlf[1..], limit);
      if crlf[0] {
        CrLfLine(f, rest, limit);
      } else {
        ReadLine(f, rest, limit);
        StripsOne(f);
      }
      assert [f] + frames[1..] == frames;
    }
  }

  // ------------------------------------------------------------ what is read

  lemma {:induction false} BytesAppend(before: seq<Got>, after: seq<Got>)
    requires forall i :: 0 <= i < |before| ==> !Stops(before[i])
    ensures Bytes(before + after) == Chunks(before) + Bytes(after)
  {
    if before == [] {
      assert before + after == after && "" + Bytes(after) == Bytes(after);
    } else {
      BytesAppend(before[1..], after);
      assert (before + after)[1..] == before[1..] + after;
      var first := if before[0].Data? then before[0].chunk else "";
      assert first + (Chunks(before[1..]) + Bytes(after)) == (first + Chunks(before[1..])) + Bytes(after);
      assert before[0].Retry? ==> "" + Chunks(before[1..]) == Chunks(before[1..]);
    }
  }

  lemma {:induction false} EndsAppend(before: seq<Got>, after: seq<Got>)
    requires forall i :: 0 <= i < |before| ==> !Stops(before[i])
    ensures HowEnds(before + after) == HowEnds(after)
  {
    if before == [] {
      assert before + after == after;
    } else {
      EndsAppend(before[1..], after);
      assert (before + after)[1..] == before[1..] + after;
    }
  }

  /** Retries add nothing, and nothing is read behind the first end or error. */
  lemma BytesOf(before: seq<Got>, after: seq<Got>)
    requires forall i :: 0 <= i < |before| ==> !Stops(before[i])
    ensures Bytes(before + after) == Chunks(before) + Bytes(after)
    ensures after != [] && Stops(after[0]) ==> Bytes(before + after) == Chunks(before)
    ensures HowEnds(before + after) ==
      if after == [] then Reading_ else if after[0] == Eof then EndOfInput
      else if after[0] == Failed then ReadError else HowEnds(after)
  {
    BytesAppend(before, after);
    EndsAppend(before, after);
    assert Chunks(before) + "" == Chunks(before);
  }

  /** The data read, in order. */
  function Chunks(got: seq<Got>): string {
    if got == [] then "" else (if got[0].Data? then got[0].chunk else "") + Chunks(got[1..])
  }

  /** A receiver that has only part of the wire has delivered a prefix of the
      frames sent, however its bytes were cut. */
  lemma PartDeliversPrefix(frames: seq<string>, part: string, limit: nat)
    requires LfFree(frames) && AllSurvive(frames, limit) && part <= Wire(frames)
    ensures Read(part, limit).Open? && Read(part, limit).frames <= frames
  {
    var rest := Wire(frames)[|part|..];
    assert Wire(frames) == part + rest;
    RoundTrip(frames, limit);
    ChunkIndependence(part, rest, limit);
    MoreGrows(Read(part, limit), rest, limit);
  }

  lemma MoreGrows(r: Reading, input: string, limit: nat)
    ensures r.frames <= More(r, input, limit).frames
    ensures r.TooLong? ==> More(r, input, limit).TooLong?
  {
  }

  /** A write that failed part way leaves its bytes on the wire: the next frame is
      glued to them, which makes one frame or a line too long to go on from; it
      arrives as sent if and only if nothing was left. */
  lemma AfterFailedWrite(left: string, f: string, limit: nat)
    requires '\n' !in left && '\n' !in f && Survives(f, limit)
    ensures Read(left + f + "\n", limit) ==
      if |left| + |f| > limit then TooLong([]) else Open([left + f], "")
    ensures Read(left + f + "\n", limit) == Open([f], "") <==> left == ""
  {
    var s := left + f;
    if |s| > limit {
      ReadTooLong(s, "\n", limit);
    } else {
      assert s + "\n" == s + "\n" + "";
      ReadLine(s, "", limit);
      ReadUnfinished("", limit);
      assert Line(s) == [s] && [s] + [] == [s];
    }
    assert s == f <==> left == "" by {
      assert |s| == |left| + |f|;
    }
  }
}
