// drain_sse of src/http_client_transport.cpp: an incremental parser of
// server-sent events. A string stands for a byte string, one char a byte.
module Sse {
  import opened Wrappers
  import Json
  import Decimal

  datatype Event = Event(data: string, id: Option<string>, retry: Option<int>)

  const BLANK := Event("", None, None)

  // --------------------------------------------------------- terminators

  datatype Terminator = NoTerminator | At(pos: nat, len: nat)

  predicate LfLfAt(s: string, i: int) {
    0 <= i && i + 1 < |s| && s[i] == '\n' && s[i + 1] == '\n'
  }

  predicate CrLfCrLfAt(s: string, i: int) {
    0 <= i && i + 3 < |s| && s[i] == '\r' && s[i + 1] == '\n' && s[i + 2] == '\r' && s[i + 3] == '\n'
  }

  predicate EndsAt(s: string, i: int) {
    LfLfAt(s, i) || CrLfCrLfAt(s, i)
  }

  /** The earliest terminator at or after i. */
  function Scan(s: string, i: nat): (t: Terminator)
    ensures t.At? ==>
      && i <= t.pos && EndsAt(s, t.pos) && t.len == (if LfLfAt(s, t.pos) then 2 else 4) && t.pos + t.len <= |s|
      && forall j :: i <= j < t.pos ==> !EndsAt(s, j)
    ensures t.NoTerminator? ==> forall j :: i <= j ==> !EndsAt(s, j)
    decreases |s| - i
  {
    if i + 1 >= |s| then NoTerminator
    else if LfLfAt(s, i) then At(i, 2)
    else if CrLfCrLfAt(s, i) then At(i, 4)
    else Scan(s, i + 1)
  }

  // --------------------------------------------------------------- lines

  /** The index of the first c, or |s|. */
  function IndexOf(s: string, c: char): (i: nat)
    ensures i <= |s|
    ensures i < |s| ==> s[i] == c
    ensures forall j :: 0 <= j < i ==> s[j] != c
  {
    if s == "" || s[0] == c then 0 else 1 + IndexOf(s[1..], c)
  }

  /** The segments between line feeds, the last one included. */
  function SplitLf(s: string): (lines: seq<string>)
    ensures lines != []
  {
    var i := IndexOf(s, '\n');
    if i == |s| then [s] else [s[..i]] + SplitLf(s[i + 1..])
  }

  function StripCr(line: string): string {
    if line != "" && line[|line| - 1] == '\r' then line[..|line| - 1] else line
  }

  function StripSpace(v: string): string {
    if v != "" && v[0] == ' ' then v[1..] else v
  }

  datatype Field = Ignored | Field(name: string, value: string)

  /** Comments and blank lines are ignored. */
  function ParseLine(raw: string): Field {
    var line := StripCr(raw);
    if line == "" || line[0] == ':' then Ignored
    else
      var c := IndexOf(line, ':');
      if c == |line| then Field(line, "") else Field(line[..c], StripSpace(line[c + 1..]))
  }

  // ------------------------------------------------------------ std::stoi

  predicate IsSpace(c: char) {
    c == ' ' || '\t' <= c <= '\r'
  }

  function SkipSpace(s: string): string {
    if s != "" && IsSpace(s[0]) then SkipSpace(s[1..]) else s
  }

  function LeadingDigits(s: string): (d: string)
    ensures Decimal.AllDigits(d) && d <= s
    ensures |d| < |s| ==> !Decimal.IsDigit(s[|d|])
  {
    if s != "" && Decimal.IsDigit(s[0]) then [s[0]] + LeadingDigits(s[1..]) else ""
  }

  /** None where stoi throws: no digits, or out of int's range. */
  function Stoi(s: string): Option<int> {
    var t := SkipSpace(s);
    var signed := t != "" && (t[0] == '-' || t[0] == '+');
    var digits := LeadingDigits(if signed then t[1..] else t);
    var size: int := Decimal.NumberOf(digits);
    var n := if signed && t[0] == '-' then -size else size;
    if digits != "" && Json.IsInt32(n) then Some(n) else None
  }

  lemma {:induction false} LeadingDigitsOf(d: string, rest: string)
    requires Decimal.AllDigits(d) && (rest == "" || !Decimal.IsDigit(rest[0]))
    ensures LeadingDigits(d + rest) == d
  {
    if d != "" {
      LeadingDigitsOf(d[1..], rest);
      assert (d + rest)[1..] == d[1..] + rest;
    } else {
      assert d + rest == rest;
    }
  }

  lemma StoiDigits(d: string, rest: string)
    requires d != "" && Decimal.AllDigits(d) && (rest == "" || !Decimal.IsDigit(rest[0]))
    ensures Stoi(d + rest) == if Json.IsInt32(Decimal.NumberOf(d)) then Some(Decimal.NumberOf(d)) else None
  {
    assert (d + rest)[0] == d[0];
    assert SkipSpace(d + rest) == d + rest;
    LeadingDigitsOf(d, rest);
  }

  lemma StoiMinus(s: string, d: string, rest: string, n: int)
    requires s != "" && s[0] == '-' && s[1..] == d + rest
    requires d != "" && Decimal.AllDigits(d) && (rest == "" || !Decimal.IsDigit(rest[0]))
    requires n + Decimal.NumberOf(d) == 0
    ensures Stoi(s) == if Json.IsInt32(n) then Some(n) else None
  {
    assert SkipSpace(s) == s;
    LeadingDigitsOf(d, rest);
  }

  lemma MinusText(n: int, rest: string)
    requires n < 0
    ensures var s := Decimal.ToString(n) + rest; s != "" && s[0] == '-' && s[1..] == Decimal.Digits(-n) + rest
  {
  }

  /** A printed integer is read back whatever other text follows, if and only if
      it is an int. */
  lemma StoiPrinted(n: int, rest: string)
    requires rest == "" || !Decimal.IsDigit(rest[0])
    ensures Stoi(Decimal.ToString(n) + rest) == if Json.IsInt32(n) then Some(n) else None
  {
    if n < 0 {
      MinusText(n, rest);
      Decimal.DigitsValue(-n);
      StoiMinus(Decimal.ToString(n) + rest, Decimal.Digits(-n), rest, n);
    } else {
      StoiDigits(Decimal.Digits(n), rest);
      Decimal.DigitsValue(n);
    }
  }

  // -------------------------------------------------------------- events

  function ApplyField(e: Event, f: Field): Event {
    if f.Ignored? then e
    else if f.name == "data" then e.(data := (if e.data != "" then e.data + "\n" else "") + f.value)
    else if f.name == "id" then e.(id := Some(f.value))
    else if f.name == "retry" && Stoi(f.value).Some? && Stoi(f.value).value >= 0 then e.(retry := Stoi(f.value))
    else e
  }

  function Apply(e: Event, raw: string): Event {
    ApplyField(e, ParseLine(raw))
  }

  function Interpret(lines: seq<string>, e: Event): Event {
    if lines == [] then e else Interpret(lines[1..], Apply(e, lines[0]))
  }

  predicate Fires(e: Event) {
    e.data != "" || e.id.Some? || e.retry.Some?
  }

  function Fired(e: Event): seq<Event> {
    if Fires(e) then [e] else []
  }

  datatype Drained = Drained(events: seq<Event>, tail: string)

  /** What the text of one event, its terminator cut off, hands to the callback. */
  function Block(text: string): seq<Event> {
    Fired(Interpret(SplitLf(text), BLANK))
  }

  /** No terminator anywhere. */
  ghost predicate Unended(s: string) {
    forall j :: !EndsAt(s, j)
  }

  lemma NoneFound(s: string)
    requires Scan(s, 0).NoTerminator?
    ensures Unended(s)
  {
  }

  lemma TailOfTail(s: string, k: nat, t: string)
    requires k <= |s| && |t| <= |s| - k && t == s[k..][|s| - k - |t|..]
    ensures t == s[|s| - |t|..]
  {
  }

  /** What one call of drain_sse makes of a buffer. */
  function Drain(s: string): (r: Drained)
    ensures |r.tail| <= |s| && r.tail == s[|s| - |r.tail|..]
    ensures Unended(r.tail)
  {
    match Scan(s, 0)
    case NoTerminator =>
      NoneFound(s);
      Drained([], s)
    case At(pos, len) =>
      var rest := Drain(s[pos + len..]);
      TailOfTail(s, pos + len, rest.tail);
      Drained(Block(s[..pos]) + rest.events, rest.tail)
  }

  // -------------------------------------------------- chunk independence

  /** The earliest terminator of a prefix is the earliest of every extension. */
  lemma TerminatorStable(a: string, b: string)
    requires Scan(a, 0).At?
    ensures Scan(a + b, 0) == Scan(a, 0)
  {
    var t := Scan(a, 0);
    forall j | 0 <= j < t.pos ensures !EndsAt(a + b, j) {
      assert !EndsAt(a, j);
      if j + 3 >= |a| {
        assert t.len == 2 && a[t.pos] == '\n';
      }
    }
    assert EndsAt(a + b, t.pos);
    assert LfLfAt(a + b, t.pos) == LfLfAt(a, t.pos);
    assert forall i :: 0 <= i <= t.pos ==> Scan(a + b, i) == t by {
      ScanDown(a + b, t.pos, t.len, t.pos);
    }
  }

  lemma {:induction false} ScanDown(s: string, pos: nat, len: nat, n: nat)
    requires EndsAt(s, pos) && len == (if LfLfAt(s, pos) then 2 else 4)
    requires forall j :: 0 <= j < pos ==> !EndsAt(s, j)
    requires n <= pos
    ensures forall i :: pos - n <= i <= pos ==> Scan(s, i) == At(pos, len)
  {
    if n > 0 {
      ScanDown(s, pos, len, n - 1);
    }
  }

  /** Draining a, then the leftover with b appended, is draining a + b at once. */
  lemma {:induction false} ChunkIndependence(a: string, b: string)
    ensures var first := Drain(a); var second := Drain(first.tail + b);
      Drain(a + b) == Drained(first.events + second.events, second.tail)
    decreases |a|
  {
    match Scan(a, 0)
    case NoTerminator => assert [] + Drain(a + b).events == Drain(a + b).events;
    case At(pos, len) =>
      TerminatorStable(a, b);
      assert (a + b)[..pos] == a[..pos];
      assert (a + b)[pos + len..] == a[pos + len..] + b;
      ChunkIndependence(a[pos + len..], b);
      Regroup(Block(a[..pos]), Drain(a[pos + len..]).events, Drain(Drain(a[pos + len..]).tail + b).events);
  }

  lemma Regroup<T>(x: seq<T>, y: seq<T>, z: seq<T>)
    ensures x + (y + z) == (x + y) + z
  {
  }

  function Flatten(chunks: seq<string>): string {
    if chunks == [] then "" else Flatten(chunks[..|chunks| - 1]) + chunks[|chunks| - 1]
  }

  /** Feeding chunks one by one, draining after each. */
  function Feed(chunks: seq<string>): Drained {
    if chunks == [] then Drained([], "")
    else
      var before := Feed(chunks[..|chunks| - 1]);
      var r := Drain(before.tail + chunks[|chunks| - 1]);
      Drained(before.events + r.events, r.tail)
  }

  /** However the bytes are cut into chunks, the events and the leftover are
      those of the whole stream. */
  lemma {:induction false} AnyChunking(chunks: seq<string>)
    ensures Feed(chunks) == Drain(Flatten(chunks))
  {
    if chunks != [] {
      AnyChunking(chunks[..|chunks| - 1]);
      ChunkIndependence(Flatten(chunks[..|chunks| - 1]), chunks[|chunks| - 1]);
    }
  }
}
