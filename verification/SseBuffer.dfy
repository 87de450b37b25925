// drain_sse as it runs: it scans and erases its buffer in place.
module SseBuffer {
  import opened Wrappers
  import opened Sse

  /** The index loop that looks for the earliest terminator. */
  method FindTerminator(buf: string) returns (t: Terminator)
    ensures t == Scan(buf, 0)
  {
    t := NoTerminator;
    var i := 0;
    while i + 1 < |buf|
      invariant 0 <= i <= |buf|
      invariant Scan(buf, 0) == Scan(buf, i)
      decreases |buf| - i
    {
      if buf[i] == '\n' && buf[i + 1] == '\n' {
        return At(i, 2);
      }
      if i + 3 < |buf| && buf[i] == '\r' && buf[i + 1] == '\n' && buf[i + 2] == '\r' && buf[i + 3] == '\n' {
        return At(i, 4);
      }
      i := i + 1;
    }
  }

  /** std::string::find for one character, from a position. */
  method FindFrom(s: string, c: char, from: nat) returns (i: nat)
    requires from <= |s|
    ensures i == from + IndexOf(s[from..], c)
  {
    i := from;
    while i < |s| && s[i] != c
      invariant from <= i <= |s|
      invariant from + IndexOf(s[from..], c) == i + IndexOf(s[i..], c)
    {
      assert s[i..][1..] == s[i + 1..];
      i := i + 1;
    }
  }

  /** What the lines from a position on still make of an event. */
  function FromLine(text: string, start: nat, se: Event): Event {
    if start <= |text| then Interpret(SplitLf(text[start..]), se) else se
  }

  lemma HeadLine(rest: string, line: string, se: Event, next: Event)
    requires line == rest[..IndexOf(rest, '\n')] && next == Apply(se, line)
    ensures Interpret(SplitLf(rest), se) ==
      if |line| == |rest| then next else Interpret(SplitLf(rest[|line| + 1..]), next)
  {
    if |line| == |rest| {
      assert line == rest;
      assert SplitLf(rest)[1..] == [];
    } else {
      assert SplitLf(rest)[1..] == SplitLf(rest[|line| + 1..]);
    }
  }

  /** The event after one more line, and the lines from the next position on. */
  lemma OneLineOn(text: string, start: nat, line: string, se: Event, next: Event)
    requires start <= |text|
    requires line == text[start..][..IndexOf(text[start..], '\n')] && next == Apply(se, line)
    ensures FromLine(text, start, se) == FromLine(text, start + |line| + 1, next)
  {
    var rest := text[start..];
    HeadLine(rest, line, se, next);
    if |line| < |rest| {
      assert rest[|line| + 1..] == text[start + |line| + 1..];
    }
  }

  /** The line that starts at a position. */
  method LineAt(text: string, start: nat) returns (line: string)
    requires start <= |text|
    ensures line == text[start..][..IndexOf(text[start..], '\n')]
  {
    var end := FindFrom(text, '\n', start);
    if end == |text| {
      line := text[start..];
    } else {
      line := text[start..end];
    }
  }

  /** The line loop of one event, filling the event field by field. */
  method ReadEvent(text: string) returns (se: Event)
    ensures se == Interpret(SplitLf(text), BLANK)
  {
    se := BLANK;
    var start := 0;
    assert text[0..] == text;
    while start <= |text|
      invariant 0 <= start <= |text| + 1
      invariant Interpret(SplitLf(text), BLANK) == FromLine(text, start, se)
      decreases |text| + 1 - start
    {
      var line := LineAt(text, start);
      var field := CutLine(line);
      var next := Fill(se, field);
      OneLineOn(text, start, line, se, next);
      se := next;
      start := start + |line| + 1;
    }
  }

  /** One line, without its carriage return, cut at its first colon. */
  method CutLine(raw: string) returns (f: Field)
    ensures f == ParseLine(raw)
  {
    var line := raw;
    if line != "" && line[|line| - 1] == '\r' {
      line := line[..|line| - 1];
    }
    if line == "" || line[0] == ':' {
      return Ignored;
    }
    assert line[0..] == line;
    var colon := FindFrom(line, ':', 0);
    if colon == |line| {
      return Field(line, "");
    }
    var value := line[colon + 1..];
    if value != "" && value[0] == ' ' {
      value := value[1..];
    }
    return Field(line[..colon], value);
  }

  method Fill(e: Event, f: Field) returns (se: Event)
    ensures se == ApplyField(e, f)
  {
    se := e;
    if f.Ignored? {
      return;
    }
    if f.name == "data" {
      var data := se.data;
      if data != "" {
        data := data + "\n";
      }
      return se.(data := data + f.value);
    }
    if f.name == "id" {
      return se.(id := Some(f.value));
    }
    if f.name == "retry" {
      var n := Stoi(f.value);
      if n.Some? && n.value >= 0 {
        return se.(retry := n);
      }
    }
  }

  lemma DrainStep(s: string)
    requires Scan(s, 0).At?
    ensures var t := Scan(s, 0); var rest := Drain(s[t.pos + t.len..]);
      Drain(s) == Drained(Block(s[..t.pos]) + rest.events, rest.tail)
  {
  }

  class Decoder {
    var buf: string

    constructor ()
      ensures buf == ""
    {
      buf := "";
    }

    /** buf.append and drain_sse; the events are what the callback is given. */
    method Push(data: string) returns (events: seq<Event>)
      modifies this
      ensures Drain(old(buf) + data) == Drained(events, buf)
    {
      buf := buf + data;
      events := [];
      ghost var all := buf;
      while true
        invariant Drain(all) == Drained(events + Drain(buf).events, Drain(buf).tail)
        decreases |buf|
      {
        var t := FindTerminator(buf);
        if t.NoTerminator? {
          assert events + [] == events;
          return;
        }
        DrainStep(buf);
        var se := ReadEvent(buf[..t.pos]);
        ghost var before := events;
        buf := buf[t.pos + t.len..];
        if se.data != "" || se.id.Some? || se.retry.Some? {
          events := events + [se];
        }
        Regroup(before, Fired(se), Drain(buf).events);
        assert events == before + Fired(se);
      }
    }
  }
}
