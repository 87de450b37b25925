// The event-stream interpreter of sections 9.2.5 and 9.2.6 of the WHATWG HTML
// standard, line by line, and exactly when drain_sse delivers the same data.
module SseStandard {
  import opened Wrappers
  import opened Sse

  // ------------------------------------------------------- the standard

  function StripBom(s: string): string {
    if |s| >= 3 && s[0] == '\U{EF}' && s[1] == '\U{BB}' && s[2] == '\U{BF}' then s[3..] else s
  }

  predicate IsEol(c: char) {
    c == '\n' || c == '\r'
  }

  /** The index of the first line ending, or |s|. */
  function FirstEol(s: string): (i: nat)
    ensures i <= |s|
    ensures i < |s| ==> IsEol(s[i])
    ensures forall j :: 0 <= j < i ==> !IsEol(s[j])
  {
    if s == "" || IsEol(s[0]) then 0 else 1 + FirstEol(s[1..])
  }

  /** The terminated lines: CRLF, LF and CR end a line; what follows the last
      ending is discarded. */
  function StdLines(s: string): seq<string> {
    var i := FirstEol(s);
    if i == |s| then []
    else
      var next := if s[i] == '\r' && i + 1 < |s| && s[i + 1] == '\n' then i + 2 else i + 1;
      [s[..i]] + StdLines(s[next..])
  }

  function StdField(line: string): Field
    requires line != ""
  {
    var c := IndexOf(line, ':');
    if c == 0 then Ignored
    else if c == |line| then Field(line, "")
    else Field(line[..c], StripSpace(line[c + 1..]))
  }

  /** A line that is not blank, on the data buffer. */
  function StdLine(buffer: string, line: string): string
    requires line != ""
  {
    match StdField(line)
    case Field(name, value) => if name == "data" then buffer + value + "\n" else buffer
    case Ignored => buffer
  }

  /** A blank line dispatches: nothing for an empty buffer, otherwise the buffer
      less its final line feed. */
  function Dispatched(buffer: string): seq<string> {
    if buffer == "" then []
    else if buffer[|buffer| - 1] == '\n' then [buffer[..|buffer| - 1]]
    else [buffer]
  }

  datatype StdState = StdState(buffer: string, payloads: seq<string>)

  function StdRun(st: StdState, lines: seq<string>): StdState
    decreases |lines|
  {
    if lines == [] then st
    else if lines[0] == "" then StdRun(StdState("", st.payloads + Dispatched(st.buffer)), lines[1..])
    else StdRun(StdState(StdLine(st.buffer, lines[0]), st.payloads), lines[1..])
  }

  /** The data of the events the standard dispatches for a stream. */
  function StdPayloads(s: string): seq<string> {
    StdRun(StdState("", []), StdLines(StripBom(s))).payloads
  }

  // ------------------------------------------------------ the repository

  /** What the callbacks deliver: the data of the events that have any. */
  function Payloads(events: seq<Event>): seq<string> {
    if events == [] then []
    else (if events[0].data != "" then [events[0].data] else []) + Payloads(events[1..])
  }

  // ------------------------------------- data values, event by event

  /** The values of the data lines. */
  function DataValues(lines: seq<string>): seq<string> {
    if lines == [] then []
    else
      var f := ParseLine(lines[0]);
      (if f.Field? && f.name == "data" then [f.value] else []) + DataValues(lines[1..])
  }

  /** The data values of each complete event of a stream. */
  function EventValues(s: string): seq<seq<string>>
    decreases |s|
  {
    match Scan(s, 0)
    case NoTerminator => []
    case At(pos, len) => [DataValues(SplitLf(s[..pos]))] + EventValues(s[pos + len..])
  }

  function StdBuffer(acc: string, vs: seq<string>): string
    decreases |vs|
  {
    if vs == [] then acc else StdBuffer(acc + vs[0] + "\n", vs[1..])
  }

  function RepoData(acc: string, vs: seq<string>): string
    decreases |vs|
  {
    if vs == [] then acc else RepoData((if acc != "" then acc + "\n" else "") + vs[0], vs[1..])
  }

  function StdList(evs: seq<seq<string>>): seq<string> {
    if evs == [] then [] else Dispatched(StdBuffer("", evs[0])) + StdList(evs[1..])
  }

  function RepoList(evs: seq<seq<string>>): seq<string> {
    if evs == [] then []
    else (if RepoData("", evs[0]) != "" then [RepoData("", evs[0])] else []) + RepoList(evs[1..])
  }

  // ------------------------------------------ the repository by values

  lemma {:induction false} InterpretData(lines: seq<string>, e: Event)
    ensures Interpret(lines, e).data == RepoData(e.data, DataValues(lines))
  {
    if lines != [] {
      InterpretData(lines[1..], Apply(e, lines[0]));
      var f := ParseLine(lines[0]);
      if f.Field? && f.name == "data" {
        assert DataValues(lines)[1..] == DataValues(lines[1..]);
      } else {
        assert DataValues(lines) == DataValues(lines[1..]);
      }
    }
  }

  lemma PayloadsOfBlock(e: Event, rest: seq<Event>)
    ensures Payloads(Fired(e) + rest) == (if e.data != "" then [e.data] else []) + Payloads(rest)
  {
    if Fires(e) {
      assert (Fired(e) + rest)[1..] == rest;
    } else {
      assert Fired(e) + rest == rest;
    }
  }

  lemma {:induction false} RepoByValues(s: string)
    ensures Payloads(Drain(s).events) == RepoList(EventValues(s))
    decreases |s|
  {
    match Scan(s, 0)
    case NoTerminator =>
    case At(pos, len) =>
      var rest := s[pos + len..];
      var lines := SplitLf(s[..pos]);
      RepoByValues(rest);
      InterpretData(lines, BLANK);
      PayloadsOfBlock(Interpret(lines, BLANK), Drain(rest).events);
      assert EventValues(s)[1..] == EventValues(rest);
  }

  // -------------------------------------------- the standard by values

  predicate CrFree(s: string) {
    '\r' !in s
  }

  lemma LineEnd(x: string, r: string)
    requires CrFree(x) && '\n' !in x
    ensures StdLines(x + "\n" + r) == [x] + StdLines(r)
  {
    var s := x + "\n" + r;
    forall j | 0 <= j < |x| ensures !IsEol(s[j]) {
      assert s[j] in x;
    }
    assert IsEol(s[|x|]);
    assert FirstEol(s) == |x|;
    assert s[..|x|] == x && s[|x| + 1..] == r;
  }

  lemma {:induction false} LinesOfBlock(e: string, r: string)
    requires CrFree(e)
    ensures StdLines(e + "\n" + r) == SplitLf(e) + StdLines(r)
    decreases |e|
  {
    var i := IndexOf(e, '\n');
    if i == |e| {
      LineEnd(e, r);
    } else {
      var x, rest := e[..i], e[i + 1..];
      assert CrFree(x) && CrFree(rest);
      assert e + "\n" + r == x + "\n" + (rest + "\n" + r);
      LineEnd(x, rest + "\n" + r);
      LinesOfBlock(rest, r);
      Regroup([x], SplitLf(rest), StdLines(r));
    }
  }

  lemma {:induction false} RunConcat(st: StdState, a: seq<string>, b: seq<string>)
    ensures StdRun(st, a + b) == StdRun(StdRun(st, a), b)
    decreases |a|
  {
    if a == [] {
      assert a + b == b;
    } else {
      assert (a + b)[1..] == a[1..] + b;
      var next := if a[0] == "" then StdState("", st.payloads + Dispatched(st.buffer))
                  else StdState(StdLine(st.buffer, a[0]), st.payloads);
      RunConcat(next, a[1..], b);
    }
  }

  predicate NoBlanks(lines: seq<string>) {
    forall k :: 0 <= k < |lines| ==> lines[k] != "" && CrFree(lines[k])
  }

  /** Lines that are not blank only fill the buffer. */
  lemma {:induction false} RunNoBlanks(st: StdState, lines: seq<string>)
    requires NoBlanks(lines)
    ensures StdRun(st, lines) == StdState(StdBuffer(st.buffer, DataValues(lines)), st.payloads)
    decreases |lines|
  {
    if lines != [] {
      var raw := lines[0];
      assert StripCr(raw) == raw by {
        assert raw[|raw| - 1] in raw;
      }
      var f := ParseLine(raw);
      assert StdField(raw) == f;
      RunNoBlanks(StdState(StdLine(st.buffer, raw), st.payloads), lines[1..]);
      if f.Field? && f.name == "data" {
        assert DataValues(lines)[1..] == DataValues(lines[1..]);
      } else {
        assert DataValues(lines) == DataValues(lines[1..]);
      }
    }
  }

  ghost predicate NoLfLf(s: string) {
    forall i :: !LfLfAt(s, i)
  }

  /** Between terminators only the very first line can be blank. */
  lemma {:induction false} OnlyFirstBlank(e: string)
    requires CrFree(e) && NoLfLf(e + "\n")
    ensures NoBlanks(SplitLf(e)[1..])
    ensures CrFree(SplitLf(e)[0])
    ensures e != "" && e[0] != '\n' ==> SplitLf(e)[0] != ""
    decreases |e|
  {
    var i := IndexOf(e, '\n');
    if i < |e| {
      var rest := e[i + 1..];
      assert !LfLfAt(e + "\n", i);
      assert CrFree(rest) && CrFree(e[..i]);
      forall j ensures !LfLfAt(rest + "\n", j) {
        assert !LfLfAt(e + "\n", i + 1 + j);
      }
      OnlyFirstBlank(rest);
      assert SplitLf(e)[1..] == SplitLf(rest);
    }
  }

  /** The lines of one block dispatch nothing and leave its values in the buffer. */
  lemma RunBlock(e: string, payloads: seq<string>)
    requires CrFree(e) && NoLfLf(e + "\n")
    ensures StdRun(StdState("", payloads), SplitLf(e)) == StdState(StdBuffer("", DataValues(SplitLf(e))), payloads)
  {
    OnlyFirstBlank(e);
    var lines := SplitLf(e);
    if lines[0] == "" {
      RunNoBlanks(StdState("", payloads), lines[1..]);
      assert payloads + [] == payloads;
      assert DataValues(lines) == DataValues(lines[1..]);
    } else {
      RunNoBlanks(StdState("", payloads), lines);
    }
  }

  lemma SliceFree(s: string, c: char, i: nat, j: nat)
    requires c !in s && i <= j <= |s|
    ensures c !in s[i..j]
  {
    assert forall k :: 0 <= k < j - i ==> s[i..j][k] == s[i + k];
  }

  lemma CutAt(s: string, i: nat)
    requires i < |s| && s[i] == '\n'
    ensures s == s[..i] + "\n" + s[i + 1..]
  {
  }

  /** The first line of a stream without carriage returns, cut off. */
  lemma CutFirst(s: string, i: nat)
    requires CrFree(s) && i == FirstEol(s) && i < |s|
    ensures s[i] == '\n' && s == s[..i] + "\n" + s[i + 1..]
    ensures CrFree(s[..i]) && '\n' !in s[..i] && CrFree(s[i + 1..])
  {
    assert s[i] == '\n' by {
      assert s[i] in s;
    }
    CutAt(s, i);
    SliceFree(s, '\r', 0, i);
    SliceFree(s, '\r', i + 1, |s|);
    assert '\n' !in s[..i] by {
      assert forall j :: 0 <= j < i ==> s[..i][j] == s[j] && !IsEol(s[j]);
    }
  }

  lemma LfLfAfter(s: string, k: nat)
    requires NoLfLf(s) && k <= |s|
    ensures NoLfLf(s[k..])
  {
    forall j ensures !LfLfAt(s[k..], j) {
      assert !LfLfAt(s, k + j);
    }
  }

  lemma RunFirst(st: StdState, line: string, lines: seq<string>)
    ensures StdRun(st, [line] + lines) ==
      if line == "" then StdRun(StdState("", st.payloads + Dispatched(st.buffer)), lines)
      else StdRun(StdState(StdLine(st.buffer, line), st.payloads), lines)
  {
    assert ([line] + lines)[1..] == lines;
  }

  /** Without a terminator no event is dispatched. */
  lemma {:induction false} RunUnfinished(s: string, st: StdState)
    requires CrFree(s) && NoLfLf(s) && (s != "" && s[0] == '\n' ==> st.buffer == "")
    ensures StdRun(st, StdLines(s)).payloads == st.payloads
    decreases |s|
  {
    var i := FirstEol(s);
    if i < |s| {
      var line, rest := s[..i], s[i + 1..];
      CutFirst(s, i);
      LineEnd(line, rest);
      LfLfAfter(s, i + 1);
      assert !LfLfAt(s, i);
      RunFirst(st, line, StdLines(rest));
      if i == 0 {
        assert st.payloads + [] == st.payloads;
        RunUnfinished(rest, StdState("", st.payloads));
      } else {
        RunUnfinished(rest, StdState(StdLine(st.buffer, line), st.payloads));
      }
    }
  }

  lemma {:induction false} StdByValues(s: string, payloads: seq<string>)
    requires CrFree(s)
    ensures StdRun(StdState("", payloads), StdLines(s)).payloads == payloads + StdList(EventValues(s))
    decreases |s|
  {
    match Scan(s, 0)
    case NoTerminator =>
      forall j ensures !LfLfAt(s, j) {
        assert !EndsAt(s, j);
      }
      RunUnfinished(s, StdState("", payloads));
    case At(pos, len) =>
      assert len == 2 by {
        assert s[pos] in s;
      }
      StdStep(s, pos, payloads);
      var e, r := s[..pos], s[pos + 2..];
      var next := payloads + Dispatched(StdBuffer("", DataValues(SplitLf(e))));
      StdByValues(r, next);
      assert EventValues(s)[1..] == EventValues(r);
      Regroup(payloads, Dispatched(StdBuffer("", DataValues(SplitLf(e)))), StdList(EventValues(r)));
  }

  /** The lines up to and over the first terminator: the block's, and a blank one. */
  lemma TerminatedLines(s: string, pos: nat)
    requires CrFree(s) && Scan(s, 0) == At(pos, 2)
    ensures CrFree(s[..pos]) && CrFree(s[pos + 2..])
    ensures StdLines(s) == SplitLf(s[..pos]) + ([""] + StdLines(s[pos + 2..]))
  {
    var e, r := s[..pos], s[pos + 2..];
    assert LfLfAt(s, pos) by {
      assert s[pos] in s;
    }
    SliceFree(s, '\r', 0, pos);
    SliceFree(s, '\r', pos + 2, |s|);
    CutTwo(s, pos);
    LinesOfBlock(e, "\n" + r);
    BlankLine(r);
  }

  lemma CutTwo(s: string, pos: nat)
    requires LfLfAt(s, pos)
    ensures s == s[..pos] + "\n" + ("\n" + s[pos + 2..])
  {
  }

  lemma BlankLine(r: string)
    ensures StdLines("\n" + r) == [""] + StdLines(r)
  {
    var lf := "\n";
    assert lf + r == "" + lf + r;
    LineEnd("", r);
  }

  lemma BlockHasNoEnd(s: string, pos: nat)
    requires Scan(s, 0) == At(pos, 2) && CrFree(s)
    ensures NoLfLf(s[..pos] + "\n")
  {
    assert LfLfAt(s, pos) by {
      assert s[pos] in s;
    }
    forall j ensures !LfLfAt(s[..pos] + "\n", j) {
      assert j < pos ==> !EndsAt(s, j);
    }
  }

  /** Up to and over the first terminator, the standard dispatches one block. */
  lemma StdStep(s: string, pos: nat, payloads: seq<string>)
    requires CrFree(s) && Scan(s, 0) == At(pos, 2)
    ensures var next := payloads + Dispatched(StdBuffer("", DataValues(SplitLf(s[..pos]))));
      StdRun(StdState("", payloads), StdLines(s)) == StdRun(StdState("", next), StdLines(s[pos + 2..]))
  {
    var e, rest := s[..pos], StdLines(s[pos + 2..]);
    TerminatedLines(s, pos);
    BlockHasNoEnd(s, pos);
    RunBlock(e, payloads);
    RunConcat(StdState("", payloads), SplitLf(e), [""] + rest);
    RunFirst(StdState(StdBuffer("", DataValues(SplitLf(e))), payloads), "", rest);
  }

  // ---------------------------------------------------------- agreement

  predicate LeadingValuesNonempty(evs: seq<seq<string>>) {
    forall k :: 0 <= k < |evs| ==> evs[k] == [] || evs[k][0] != ""
  }

  /** The buffer is the joined values and one line feed. */
  lemma {:induction false} BufferAndData(acc: string, vs: seq<string>)
    requires acc != ""
    ensures StdBuffer(acc + "\n", vs) == RepoData(acc, vs) + "\n"
    ensures RepoData(acc, vs) != ""
    decreases |vs|
  {
    if vs != [] {
      BufferAndData(acc + "\n" + vs[0], vs[1..]);
      assert acc + "\n" + vs[0] + "\n" == (acc + "\n") + vs[0] + "\n";
    }
  }

  lemma GoodEvent(vs: seq<string>)
    requires vs != [] && vs[0] != ""
    ensures RepoData("", vs) != "" && Dispatched(StdBuffer("", vs)) == [RepoData("", vs)]
  {
    BufferAndData(vs[0], vs[1..]);
    assert "" + vs[0] == vs[0] && "" + vs[0] + "\n" == vs[0] + "\n";
    var d := RepoData("", vs);
    assert (d + "\n")[..|d|] == d;
  }

  /** Every value costs the standard's buffer a line feed, the repository's one less. */
  lemma {:induction false} BufferLength(acc: string, data: string, vs: seq<string>)
    ensures |StdBuffer(acc, vs)| - |RepoData(data, vs)| >= |acc| - |data| + (if vs != [] && data == "" then 1 else 0)
    ensures vs != [] ==> StdBuffer(acc, vs) != "" && StdBuffer(acc, vs)[|StdBuffer(acc, vs)| - 1] == '\n'
    decreases |vs|
  {
    if vs != [] {
      var next := (if data != "" then data + "\n" else "") + vs[0];
      BufferLength(acc + vs[0] + "\n", next, vs[1..]);
    }
  }

  lemma DispatchedOnce(vs: seq<string>)
    ensures |Dispatched(StdBuffer("", vs))| == (if vs == [] then 0 else 1)
  {
    BufferLength("", "", vs);
  }

  /** A leading empty value makes the two disagree on the event. */
  lemma BadEvent(vs: seq<string>)
    requires vs != [] && vs[0] == ""
    ensures RepoData("", vs) == "" || Dispatched(StdBuffer("", vs)) != [RepoData("", vs)]
  {
    assert "" + vs[0] + "\n" == "\n" && "" + vs[0] == "";
    BufferLength("\n", "", vs[1..]);
    DispatchedOnce(vs);
    BufferLength("", "", vs);
  }

  lemma {:induction false} RepoNoLonger(evs: seq<seq<string>>)
    ensures |RepoList(evs)| <= |StdList(evs)|
  {
    if evs != [] {
      RepoNoLonger(evs[1..]);
      DispatchedOnce(evs[0]);
    }
  }

  lemma LeadingFirst(vs: seq<string>, rest: seq<seq<string>>)
    ensures LeadingValuesNonempty([vs] + rest) <==> (vs == [] || vs[0] != "") && LeadingValuesNonempty(rest)
  {
    var evs := [vs] + rest;
    assert evs[0] == vs;
    assert forall k :: 0 <= k < |rest| ==> rest[k] == evs[k + 1];
    assert forall k :: 1 <= k < |evs| ==> evs[k] == rest[k - 1];
  }

  lemma ListsFirst(vs: seq<string>, rest: seq<seq<string>>)
    ensures StdList([vs] + rest) == Dispatched(StdBuffer("", vs)) + StdList(rest)
    ensures RepoList([vs] + rest) == (if RepoData("", vs) != "" then [RepoData("", vs)] else []) + RepoList(rest)
  {
    assert ([vs] + rest)[1..] == rest;
  }

  /** The two agree on an event if and only if it has no leading empty value. */
  lemma EventAgrees(vs: seq<string>)
    ensures vs == [] || vs[0] != "" ==>
      Dispatched(StdBuffer("", vs)) == if RepoData("", vs) != "" then [RepoData("", vs)] else []
    ensures vs != [] && vs[0] == "" ==>
      |Dispatched(StdBuffer("", vs))| == 1
      && (RepoData("", vs) == "" || Dispatched(StdBuffer("", vs))[0] != RepoData("", vs))
  {
    if vs != [] && vs[0] != "" {
      GoodEvent(vs);
    } else if vs != [] {
      DispatchedOnce(vs);
      BadEvent(vs);
    }
  }

  /** Two lists with heads of at most one item, the second head no shorter. */
  lemma HeadsDiffer(a: seq<string>, b: seq<string>, x: seq<string>, y: seq<string>)
    requires |a| <= |b| == 1 && |x| <= |y| && (a != [] ==> a[0] != b[0])
    ensures a + x != b + y
  {
    if a != [] {
      assert (a + x)[0] == a[0] && (b + y)[0] == b[0];
    } else {
      assert |a + x| < |b + y|;
    }
  }

  lemma SameHead(a: seq<string>, x: seq<string>, y: seq<string>)
    ensures a + x == a + y <==> x == y
  {
    assert (a + x)[|a|..] == x && (a + y)[|a|..] == y;
  }

  lemma {:induction false} ListsAgree(evs: seq<seq<string>>)
    ensures RepoList(evs) == StdList(evs) <==> LeadingValuesNonempty(evs)
  {
    if evs != [] {
      var vs, rest := evs[0], evs[1..];
      assert evs == [vs] + rest;
      ListsAgree(rest);
      LeadingFirst(vs, rest);
      ListsFirst(vs, rest);
      EventAgrees(vs);
      var std, repo := Dispatched(StdBuffer("", vs)), if RepoData("", vs) != "" then [RepoData("", vs)] else [];
      if vs == [] || vs[0] != "" {
        SameHead(std, RepoList(rest), StdList(rest));
      } else {
        RepoNoLonger(rest);
        HeadsDiffer(repo, std, RepoList(rest), StdList(rest));
      }
    }
  }

  /** On streams without carriage returns and byte order mark, the callbacks are
      given exactly the data the standard dispatches if and only if no event
      starts its data with an empty value. */
  lemma AgreesWithStandard(s: string)
    requires CrFree(s) && StripBom(s) == s
    ensures Payloads(Drain(s).events) == StdPayloads(s) <==> LeadingValuesNonempty(EventValues(s))
  {
    RepoByValues(s);
    StdByValues(s, []);
    assert [] + StdList(EventValues(s)) == StdList(EventValues(s));
    ListsAgree(EventValues(s));
  }
}
