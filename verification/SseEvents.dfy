// Which events reach the callback, and what the other ways of writing a line and
// ending an event mean to it.
module SseEvents {
  import opened Wrappers
  import opened Sse
  import opened SseWire
  import Decimal
  import Json

  // ------------------------------------------------------- what is delivered

  /** A line that gives an event something: nonempty data, an id, or a delay. */
  predicate Gives(line: string) {
    var f := ParseLine(line);
    f.Field?
    && ((f.name == "data" && f.value != "")
        || f.name == "id"
        || (f.name == "retry" && Stoi(f.value).Some? && Stoi(f.value).value >= 0))
  }

  predicate SomeGives(lines: seq<string>) {
    exists k :: 0 <= k < |lines| && Gives(lines[k])
  }

  lemma ApplyFires(e: Event, line: string)
    ensures Fires(Apply(e, line)) <==> Fires(e) || Gives(line)
  {
  }

  lemma {:induction false} InterpretFires(lines: seq<string>, e: Event)
    ensures Fires(Interpret(lines, e)) <==> Fires(e) || SomeGives(lines)
  {
    if lines != [] {
      ApplyFires(e, lines[0]);
      InterpretFires(lines[1..], Apply(e, lines[0]));
      assert forall k :: 1 <= k < |lines| ==> lines[k] == lines[1..][k - 1];
      assert SomeGives(lines) <==> Gives(lines[0]) || SomeGives(lines[1..]) by {
        if SomeGives(lines[1..]) {
          var k :| 0 <= k < |lines[1..]| && Gives(lines[1..][k]);
          assert Gives(lines[k + 1]);
        }
      }
    }
  }

  /** The first complete event of a buffer reaches the callback if and only if some
      line of it gives data, an id or a delay; the rest is drained as by itself. */
  lemma DeliveredExactly(s: string)
    requires Scan(s, 0).At?
    ensures var t := Scan(s, 0); var rest := Drain(s[t.pos + t.len..]);
      && Drain(s).tail == rest.tail
      && Drain(s).events ==
           (if SomeGives(SplitLf(s[..t.pos])) then [Interpret(SplitLf(s[..t.pos]), BLANK)] else []) + rest.events
  {
    InterpretFires(SplitLf(s[..Scan(s, 0).pos]), BLANK);
  }

  /** An event of one line that gives something is delivered. */
  lemma GivenLine(line: string, e: Event, rest: string)
    requires LfFree(line) && Apply(BLANK, line) == e && Gives(line)
    ensures Drain(line + "\n\n" + rest) == Drained([e] + Drain(rest).events, Drain(rest).tail)
  {
    ApplyFires(BLANK, line);
    OneLine(line, rest);
  }

  lemma LineFree(name: string, v: string)
    requires LfFree(name) && LfFree(v)
    ensures LfFree(name + ": " + v)
  {
    var sep := ": ";
    assert LfFree(sep) by {
      assert forall j :: 0 <= j < |sep| ==> sep[j] != '\n';
    }
  }

  /** An event with only an id reaches the callback. */
  lemma IdEvent(v: string, rest: string)
    requires LfFree(v)
    ensures Drain("id: " + v + "\n\n" + rest)
      == Drained([Event("", Some(StripCr(v)), None)] + Drain(rest).events, Drain(rest).tail)
  {
    var name := "id";
    LineFree(name, v);
    FieldLine(name, v);
    IdLine(BLANK, v);
    assert name + ": " == "id: ";
    GivenLine("id: " + v, Event("", Some(StripCr(v)), None), rest);
  }

  lemma PrintedFree(n: int)
    ensures LfFree(Decimal.ToString(n)) && StripCr(Decimal.ToString(n)) == Decimal.ToString(n)
  {
    var d, sign := Decimal.Digits(if n < 0 then -n else n), "-";
    assert forall i :: 0 <= i < |d| ==> Decimal.IsDigit(d[i]);
    assert LfFree(d) && sign[0] == '-' && LfFree(sign);
  }

  /** An event with only a delay reaches the callback if and only if the delay is an
      int and not negative. */
  lemma RetryEvent(n: int, rest: string)
    ensures Drain("retry: " + Decimal.ToString(n) + "\n\n" + rest) ==
      if 0 <= n && Json.IsInt32(n) then Drained([Event("", None, Some(n))] + Drain(rest).events, Drain(rest).tail)
      else Drain(rest)
  {
    var name, v := "retry", Decimal.ToString(n);
    PrintedFree(n);
    LineFree(name, v);
    assert name + ": " == "retry: ";
    RetryLine(BLANK, n);
    if 0 <= n && Json.IsInt32(n) {
      FieldLine(name, v);
      assert v + "" == v;
      StoiPrinted(n, "");
      GivenLine("retry: " + v, Event("", None, Some(n)), rest);
    } else {
      SilentLine("retry: " + v, rest);
    }
  }

  // ------------------------------------------------------- other ways to write

  /** Without a space after the colon the value is all that follows. */
  lemma TightField(name: string, v: string)
    requires name != "" && ':' !in name && (v == "" || v[0] != ' ') && (v == "" || v[|v| - 1] != '\r')
    ensures ParseLine(name + ":" + v) == Field(name, v)
  {
    var line := name + ":" + v;
    assert StripCr(line) == line by {
      assert v == "" ==> line[|line| - 1] == ':';
    }
    ColonAt(name, v);
  }

  lemma ColonAt(name: string, v: string)
    requires ':' !in name
    ensures var line := name + ":" + v;
      IndexOf(line, ':') == |name| && line[..|name|] == name && line[|name| + 1..] == v
  {
    var line := name + ":" + v;
    forall j | 0 <= j < |name| ensures line[j] != ':' {
      assert line[j] == name[j];
    }
    assert line[|name|] == ':';
  }

  /** Without a colon the whole line is a field of no value. */
  lemma BareField(line: string)
    requires line != "" && ':' !in line && line[|line| - 1] != '\r'
    ensures ParseLine(line) == Field(line, "")
  {
    assert IndexOf(line, ':') == |line|;
  }

  /** Comments, blank lines and fields of other names change nothing. */
  lemma OtherLine(e: Event, line: string)
    requires line == "" || line == "\r" || line[0] == ':'
      || (ParseLine(line).Field? && ParseLine(line).name !in {"data", "id", "retry"})
    ensures Apply(e, line) == e
  {
    if line != "" && line[0] == ':' {
      assert StripCr(line)[0] == ':';
    }
  }

  /** A carriage return before the line feed is no part of the line. */
  lemma CrLfLine(line: string)
    requires line == "" || line[|line| - 1] != '\r'
    ensures StripCr(line + "\r") == line && ParseLine(line + "\r") == ParseLine(line)
  {
    assert (line + "\r")[..|line|] == line;
  }

  // -------------------------------------------------- events ended by CRLF CRLF

  lemma ScanCrLf(x: string, rest: string)
    requires LfFree(x)
    ensures Scan(x + "\r\n\r\n" + rest, 0) == At(|x|, 4)
  {
    var s := x + "\r\n\r\n" + rest;
    forall j | 0 <= j < |x| ensures !EndsAt(s, j) {
      assert s[j] in x;
      assert j + 1 < |x| ==> s[j + 1] in x;
      assert j + 1 == |x| ==> s[j + 1] == '\r';
    }
    assert s[|x|] == '\r' && s[|x| + 1] == '\n' && s[|x| + 2] == '\r' && s[|x| + 3] == '\n';
    ScanDown(s, |x|, 4, |x|);
  }

  lemma DrainCrLf(s: string, x: string, rest: string)
    requires LfFree(x) && Scan(s, 0) == At(|x|, 4)
    requires s[..|x|] == x && s[|x| + 4..] == rest
    ensures Drain(s) == Drained(Fired(Apply(BLANK, x)) + Drain(rest).events, Drain(rest).tail)
  {
    ReadOneLine(x);
  }

  lemma CutCrLf(x: string, rest: string)
    ensures var s := x + "\r\n\r\n" + rest; s[..|x|] == x && s[|x| + 4..] == rest
  {
  }

  /** A frame whose event ends in CRLF CRLF is delivered like one that ends in LF LF. */
  lemma CrLfFrame(f: string, rest: string)
    requires LfFree(f) && Survives(f)
    ensures Drain("data: " + f + "\r\n\r\n" + rest)
         == Drained([Event(f, None, None)] + Drain(rest).events, Drain(rest).tail)
  {
    var x, name := "data: " + f, "data";
    LineFree(name, f);
    assert name + ": " == "data: ";
    ScanCrLf(x, rest);
    CutCrLf(x, rest);
    ReadDataLine(f);
    DrainCrLf(x + "\r\n\r\n" + rest, x, rest);
  }

  // ------------------------------------------------------------- std::stoi

  /** White space before a number is skipped, a plus sign allowed, and nothing but
      a number gives one. */
  lemma StoiSpace(c: char, s: string)
    requires c in {' ', '\t', '\n', '\U{0B}', '\U{0C}', '\r'}
    ensures Stoi([c] + s) == Stoi(s)
  {
    assert ([c] + s)[1..] == s;
  }

  lemma StoiPlus(n: nat)
    ensures Stoi("+" + Decimal.ToString(n)) == if Json.IsInt32(n) then Some(n) else None
  {
    var d := Decimal.Digits(n);
    var s := "+" + d;
    assert s[0] == '+' && s[1..] == d + "" == d;
    assert SkipSpace(s) == s;
    LeadingDigitsOf(d, "");
    Decimal.DigitsValue(n);
  }

  lemma StoiNone(s: string)
    requires s == "" || (s[0] !in {' ', '\t', '\n', '\U{0B}', '\U{0C}', '\r', '+', '-'} && !('0' <= s[0] <= '9'))
    ensures Stoi(s) == None
  {
  }
}
