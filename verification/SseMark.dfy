// Streams that start with a byte order mark. The standard skips the mark; drain_sse
// takes it for the beginning of the first line.
module SseMark {
  import opened Sse
  import opened SseStandard
  import opened SseWire

  predicate IsBom(b: string) {
    |b| == 3 && b[0] == '\U{EF}' && b[1] == '\U{BB}' && b[2] == '\U{BF}'
  }

  lemma MarkFacts(bom: string)
    requires IsBom(bom)
    ensures forall j :: 0 <= j < 3 ==> bom[j] != '\n' && bom[j] != '\r' && bom[j] != ':'
  {
  }

  // ------------------------------------------------ the mark in the first line

  predicate IsData(line: string) {
    var f := ParseLine(line);
    f.Field? && f.name == "data"
  }

  /** A line behind the mark has a field name that is nobody's. */
  lemma MarkedLine(bom: string, line: string)
    requires IsBom(bom)
    ensures !IsData(bom + line)
    ensures forall e :: Apply(e, bom + line) == e
  {
    MarkFacts(bom);
    var stripped := StripCr(bom + line);
    assert |stripped| >= 3 && stripped[0] == bom[0] && stripped[0] != ':';
    assert 0 < IndexOf(stripped, ':');
    var f := ParseLine(bom + line);
    assert f.Field? && f.name[0] == bom[0];
    NoneStartsWithMark(f.name, bom);
    forall e ensures ApplyField(e, f) == e {
    }
  }

  lemma NoneStartsWithMark(name: string, bom: string)
    requires IsBom(bom) && name != "" && name[0] == bom[0]
    ensures name != "data" && name != "id" && name != "retry"
  {
    var data, id, retry := "data", "id", "retry";
    assert data[0] == 'd' && id[0] == 'i' && retry[0] == 'r';
  }

  lemma MarkedIndex(bom: string, s: string)
    requires IsBom(bom)
    ensures IndexOf(bom + s, '\n') == 3 + IndexOf(s, '\n')
  {
    MarkFacts(bom);
    var all, i := bom + s, IndexOf(s, '\n');
    forall j | 0 <= j < 3 + i ensures all[j] != '\n' {
      assert all[j] == if j < 3 then bom[j] else s[j - 3];
    }
    if i < |s| {
      assert all[3 + i] == s[i];
    }
  }

  lemma MarkedLines(bom: string, e: string)
    requires IsBom(bom)
    ensures SplitLf(bom + e) == [bom + SplitLf(e)[0]] + SplitLf(e)[1..]
  {
    MarkedIndex(bom, e);
    var i := IndexOf(e, '\n');
    if i == |e| {
      assert SplitLf(e) == [e] && [e][1..] == [];
    } else {
      assert (bom + e)[..3 + i] == bom + e[..i] && (bom + e)[3 + i + 1..] == e[i + 1..];
      assert SplitLf(e)[1..] == SplitLf(e[i + 1..]);
    }
  }

  lemma MarkedEnds(bom: string, s: string, i: nat)
    requires IsBom(bom)
    ensures i < 3 ==> !EndsAt(bom + s, i)
    ensures EndsAt(bom + s, 3 + i) <==> EndsAt(s, i)
  {
    MarkFacts(bom);
    assert i < 3 ==> (bom + s)[i] == bom[i];
    assert forall k :: 0 <= k < |s| ==> (bom + s)[3 + k] == s[k];
  }

  lemma MarkedScan(bom: string, s: string)
    requires IsBom(bom)
    ensures Scan(bom + s, 0) == match Scan(s, 0) case NoTerminator => NoTerminator case At(pos, len) => At(3 + pos, len)
  {
    forall j: nat ensures EndsAt(bom + s, j) <==> j >= 3 && EndsAt(s, j - 3) {
      if j < 3 {
        MarkedEnds(bom, s, j);
      } else {
        MarkedEnds(bom, s, j - 3);
      }
    }
    match Scan(s, 0)
    case NoTerminator =>
    case At(pos, len) =>
      assert EndsAt(bom + s, 3 + pos);
      assert LfLfAt(bom + s, 3 + pos) <==> LfLfAt(s, pos);
      assert forall j :: 0 <= j < 3 + pos ==> !EndsAt(bom + s, j);
  }

  /** The first complete event starts with a data line. */
  predicate StartsWithData(s: string) {
    Scan(s, 0).At? && IsData(SplitLf(s[..Scan(s, 0).pos])[0])
  }

  /** The values behind the mark: a leading data line's is missing. */
  function Hidden(evs: seq<seq<string>>, first: bool): seq<seq<string>>
    requires first ==> evs != [] && evs[0] != []
  {
    if first then [evs[0][1..]] + evs[1..] else evs
  }

  /** The mark takes at most one value: that of a leading data line. */
  lemma MarkedValues(bom: string, s: string)
    requires IsBom(bom)
    ensures StartsWithData(s) ==> EventValues(s) != [] && EventValues(s)[0] != []
    ensures EventValues(bom + s) == Hidden(EventValues(s), StartsWithData(s))
  {
    MarkedScan(bom, s);
    match Scan(s, 0)
    case NoTerminator => assert Scan(bom + s, 0).NoTerminator?;
    case At(pos, len) => MarkedFirst(bom, s, pos, len);
  }

  lemma MarkedFirst(bom: string, s: string, pos: nat, len: nat)
    requires IsBom(bom) && Scan(s, 0) == At(pos, len) && Scan(bom + s, 0) == At(3 + pos, len)
    ensures StartsWithData(s) ==> EventValues(s) != [] && EventValues(s)[0] != []
    ensures EventValues(bom + s) == Hidden(EventValues(s), StartsWithData(s))
  {
    var all, e := bom + s, s[..pos];
    assert all[..3 + pos] == bom + e && all[3 + pos + len..] == s[pos + len..];
    var evs, marked := EventValues(s), EventValues(all);
    FirstEvent(s, pos, len);
    FirstEvent(all, 3 + pos, len);
    MarkedBlock(bom, e);
    assert marked[1..] == evs[1..];
    assert marked == [marked[0]] + evs[1..];
  }

  lemma FirstEvent(s: string, pos: nat, len: nat)
    requires Scan(s, 0) == At(pos, len)
    ensures EventValues(s) != []
    ensures EventValues(s)[0] == DataValues(SplitLf(s[..pos])) && EventValues(s)[1..] == EventValues(s[pos + len..])
    ensures EventValues(s) == [EventValues(s)[0]] + EventValues(s)[1..]
  {
  }

  lemma MarkedBlock(bom: string, e: string)
    requires IsBom(bom)
    ensures IsData(SplitLf(e)[0]) ==> DataValues(SplitLf(e)) != []
    ensures DataValues(SplitLf(bom + e)) ==
      if IsData(SplitLf(e)[0]) then DataValues(SplitLf(e))[1..] else DataValues(SplitLf(e))
  {
    MarkedLines(bom, e);
    var first, rest := SplitLf(e)[0], SplitLf(e)[1..];
    assert SplitLf(e) == [first] + rest;
    MarkedLine(bom, first);
    FirstValue(first, rest);
    FirstValue(bom + first, rest);
  }

  lemma FirstValue(first: string, rest: seq<string>)
    ensures DataValues([first] + rest) == (if IsData(first) then [ParseLine(first).value] else []) + DataValues(rest)
  {
    assert ([first] + rest)[1..] == rest;
  }

  // -------------------------------------------------------- what is delivered

  /** An event that lost its first value is never delivered as the standard does. */
  lemma LostValue(vs: seq<string>, rest: seq<seq<string>>)
    requires vs != []
    ensures RepoList([vs[1..]] + rest) != StdList([vs] + rest)
  {
    var repo, std := RepoData("", vs[1..]), Dispatched(StdBuffer("", vs));
    ListsFirst(vs[1..], rest);
    ListsFirst(vs, rest);
    RepoNoLonger(rest);
    DispatchedOnce(vs);
    LostLength(vs);
    HeadsDiffer(if repo != "" then [repo] else [], std, RepoList(rest), StdList(rest));
  }

  lemma LostLength(vs: seq<string>)
    requires vs != []
    ensures RepoData("", vs[1..]) != "" ==>
      Dispatched(StdBuffer("", vs)) != [] && |Dispatched(StdBuffer("", vs))[0]| > |RepoData("", vs[1..])|
  {
    BufferLength("", "", vs);
    BufferLength("" + vs[0] + "\n", "", vs[1..]);
  }

  /** Behind a byte order mark, on streams without carriage returns: the callbacks
      are given exactly the data the standard dispatches if and only if no event
      starts its data with an empty value and the first complete event does not
      start with a data line. */
  lemma AgreesBehindMark(bom: string, s: string)
    requires IsBom(bom) && CrFree(s)
    ensures Payloads(Drain(bom + s).events) == StdPayloads(bom + s)
      <==> LeadingValuesNonempty(EventValues(s)) && !StartsWithData(s)
  {
    var evs := EventValues(s);
    assert StripBom(bom + s) == s;
    RepoByValues(bom + s);
    StdByValues(s, []);
    assert [] + StdList(evs) == StdList(evs);
    MarkedValues(bom, s);
    if StartsWithData(s) {
      assert evs == [evs[0]] + evs[1..];
      LostValue(evs[0], evs[1..]);
    } else {
      ListsAgree(evs);
    }
  }

  // ------------------------------------------------------ a frame behind it

  lemma DataPrefix(f: string)
    requires LfFree(f)
    ensures LfFree("data: " + f)
    ensures CrFree(f) ==> CrFree("data: " + f)
  {
    var d := "data: ";
    assert forall i :: 0 <= i < |d| ==> d[i] != '\n' && d[i] != '\r';
    assert LfFree(d) && CrFree(d);
  }

  lemma FrameLine(f: string)
    requires LfFree(f) && CrFree(f)
    ensures SplitLf("data: " + f) == ["data: " + f]
    ensures IsData("data: " + f) && DataValues(["data: " + f]) == [f]
  {
    var x, name := "data: " + f, "data";
    DataPrefix(f);
    assert IndexOf(x, '\n') == |x|;
    FieldLine(name, f);
    assert name + ": " == "data: ";
    assert StripCr(f) == f by {
      assert f != "" ==> f[|f| - 1] in f;
    }
    FirstValue(x, []);
    assert [x] + [] == [x];
  }

  lemma FrameEvent(x: string, s: string)
    requires LfFree(x) && s == x + "\n\n" + ""
    ensures Scan(s, 0) == At(|x|, 2) && s[..|x|] == x
    ensures EventValues(s) == [DataValues(SplitLf(x))]
  {
    ScanOneLine(x, "");
    assert s[..|x|] == x && s[|x| + 2..] == "";
    FirstEvent(s, |x|, 2);
    assert EventValues("") == [];
  }

  lemma FrameValues(f: string)
    requires LfFree(f) && CrFree(f)
    ensures CrFree(Encode(FrameItem(f))) && EventValues(Encode(FrameItem(f))) == [[f]]
  {
    var x, s, end := "data: " + f, Encode(FrameItem(f)), "\n\n";
    DataPrefix(f);
    FrameLine(f);
    assert end[0] != '\r' && end[1] != '\r';
    assert s == x + end + "";
    FrameEvent(x, s);
  }

  lemma Nested(a: string, b: string, c: string, d: string)
    ensures a + (b + c + d) == (a + (b + c)) + d + ""
  {
  }

  /** A frame directly behind the mark is lost, which the standard would deliver. */
  lemma ByteOrderMarkHidesData(bom: string, f: string)
    requires IsBom(bom) && LfFree(f)
    ensures Drain(bom + Encode(FrameItem(f))) == Drain("")
    ensures CrFree(f) ==> StdPayloads(bom + Encode(FrameItem(f))) == [f]
  {
    var line := "data: " + f;
    DataPrefix(f);
    MarkFacts(bom);
    MarkedLine(bom, line);
    Nested(bom, "data: ", f, "\n\n");
    SilentLine(bom + line, "");
    if CrFree(f) {
      StandardDelivers(bom, f);
    }
  }

  lemma StandardDelivers(bom: string, f: string)
    requires IsBom(bom) && LfFree(f) && CrFree(f)
    ensures StdPayloads(bom + Encode(FrameItem(f))) == [f]
  {
    var s := Encode(FrameItem(f));
    assert StripBom(bom + s) == s;
    FrameValues(f);
    StdByValues(s, []);
    OneDispatch(f);
  }

  lemma OneDispatch(f: string)
    ensures StdList([[f]]) == [f]
  {
    assert [[f]][1..] == [] && [f][1..] == [];
    assert StdBuffer("", [f]) == StdBuffer("" + f + "\n", []);
    assert "" + f + "\n" == f + "\n" && (f + "\n")[..|f|] == f;
  }
}
