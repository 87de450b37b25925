// The JSON-RPC 2.0 envelope codec: src/protocol.cpp.
module JsonRpc {
  import opened Wrappers
  import opened Json
  import Decimal

  datatype RequestId = StrId(text: string) | IntId(n: int)

  datatype ErrorObject = ErrorObject(code: int, message: string, data: Value)

  datatype Outcome = Success(result: Value) | Failure(error: ErrorObject)

  datatype Message =
    | Request(id: RequestId, name: string, params: Option<Value>)
    | Notification(name: string, params: Option<Value>)
    | Response(target: Option<RequestId>, outcome: Outcome)

  // ---------------------------------------------------------------- ids

  function Canonical(id: RequestId): string {
    match id
    case StrId(t) => "s:" + t
    case IntId(n) => "i:" + Decimal.ToString(n)
  }

  function IdToJson(id: RequestId): Value {
    match id
    case StrId(t) => Str(t)
    case IntId(n) => Int(n)
  }

  /** Whole floats are accepted as integers, fractional ones refused. */
  function IdFromJson(j: Value): Result<RequestId> {
    match j
    case Str(s) => Ok(StrId(s))
    case Int(i) => Ok(IntId(ToInt64(i)))
    case Float(r) =>
      if r == r.Floor as real && IsInt64(r.Floor) then Ok(IntId(r.Floor))
      else Err(Coded(PARSE_ERROR))
    case _ => Err(Coded(PARSE_ERROR))
  }

  // ---------------------------------------------------------- envelopes

  function ErrorToJson(e: ErrorObject): Value {
    var base := map["code" := Int(e.code), "message" := Str(e.message)];
    Obj(if e.data.Null? then base else base["data" := e.data])
  }

  function ErrorFromJson(j: Value): Result<ErrorObject> {
    var raw :- Require(j, "code");
    var code :- AsInt32(raw);
    var message :- RequireString(j, "message");
    Ok(ErrorObject(code, message, if j.Has("data") then j.At("data") else Null))
  }

  function WithParams(fields: map<string, Value>, params: Option<Value>): Value {
    Obj(if params.Some? then fields["params" := params.value] else fields)
  }

  function Serialize(m: Message): Value {
    match m
    case Request(id, name, params) =>
      WithParams(map["jsonrpc" := Str("2.0"), "id" := IdToJson(id), "method" := Str(name)], params)
    case Notification(name, params) =>
      WithParams(map["jsonrpc" := Str("2.0"), "method" := Str(name)], params)
    case Response(target, outcome) =>
      var base := map["jsonrpc" := Str("2.0"),
                      "id" := if target.Some? then IdToJson(target.value) else Null];
      Obj(match outcome
          case Success(result) => base["result" := result]
          case Failure(error) => base["error" := ErrorToJson(error)])
  }

  function CheckVersion(j: Value): Result<bool> {
    var v :- RequireString(j, "jsonrpc");
    if v == "2.0" then Ok(true) else Err(Coded(INVALID_REQUEST))
  }

  function ParseRequest(j: Value): Result<Message> {
    var _ :- CheckVersion(j);
    if !j.Has("id") then Err(Shape)
    else
      var id :- IdFromJson(j.At("id"));
      var name :- RequireString(j, "method");
      Ok(Request(id, name, TakeJson(j, "params")))
  }

  function ParseNotification(j: Value): Result<Message> {
    var _ :- CheckVersion(j);
    var name :- RequireString(j, "method");
    Ok(Notification(name, TakeJson(j, "params")))
  }

  function ParseTarget(j: Value): Result<Option<RequestId>> {
    if j.Has("id") && !j.At("id").Null? then
      var id :- IdFromJson(j.At("id"));
      Ok(Some(id))
    else Ok(None)
  }

  function ParseResponse(j: Value): Result<Message> {
    var _ :- CheckVersion(j);
    var target :- ParseTarget(j);
    if j.Has("result") == j.Has("error") then Err(Coded(INVALID_REQUEST))
    else if j.Has("result") then Ok(Response(target, Success(j.At("result"))))
    else
      var e :- ErrorFromJson(j.At("error"));
      Ok(Response(target, Failure(e)))
  }

  function Parse(j: Value): Result<Message> {
    if !j.Obj? then Err(Coded(INVALID_REQUEST))
    else if j.Has("method") && j.Has("id") then ParseRequest(j)
    else if j.Has("method") then ParseNotification(j)
    else if j.Has("result") || j.Has("error") then ParseResponse(j)
    else Err(Coded(INVALID_REQUEST))
  }

  // --------------------------------------------------------- properties

  predicate TypedId(id: RequestId) {
    id.IntId? ==> IsInt64(id.n)
  }

  /** What the C++ types already guarantee: 64-bit ids and int error codes. */
  predicate Typed(m: Message) {
    match m
    case Request(id, _, _) => TypedId(id)
    case Notification(_, _) => true
    case Response(target, outcome) =>
      (target.Some? ==> TypedId(target.value)) && (outcome.Failure? ==> IsInt32(outcome.error.code))
  }

  predicate ExplicitNullParams(m: Message) {
    !m.Response? && m.params == Some(Null)
  }

  lemma IdRoundTrip(id: RequestId)
    requires TypedId(id)
    ensures IdFromJson(IdToJson(id)) == Ok(id)
    ensures !IdToJson(id).Null?
  {
  }

  /** Integer and string ids never share a key, nor do two ids of one kind. */
  lemma CanonicalInjective(a: RequestId, b: RequestId)
    requires Canonical(a) == Canonical(b)
    ensures a == b
  {
    assert Canonical(a)[0] == Canonical(b)[0];
    assert Canonical(a)[2..] == Canonical(b)[2..];
    match a
    case StrId(t) =>
      assert Canonical(a)[2..] == t;
      assert b.StrId? && Canonical(b)[2..] == b.text;
    case IntId(n) =>
      assert Canonical(a)[2..] == Decimal.ToString(n);
      assert b.IntId? && Canonical(b)[2..] == Decimal.ToString(b.n);
      Decimal.ToStringInjective(n, b.n);
  }

  /** A frame parses back to the message it was made from, except exactly when
      its params are an explicit null, which the reader takes for absent. */
  lemma RoundTrip(m: Message)
    requires Typed(m)
    ensures Parse(Serialize(m)) == Ok(m) <==> !ExplicitNullParams(m)
    ensures ExplicitNullParams(m) ==> Parse(Serialize(m)) == Ok(m.(params := None))
  {
    var j := Serialize(m);
    match m
    case Request(id, name, params) =>
      IdRoundTrip(id);
      assert Parse(j) == ParseRequest(j);
    case Notification(name, params) =>
      assert Parse(j) == ParseNotification(j);
    case Response(target, outcome) =>
      if target.Some? {
        IdRoundTrip(target.value);
      }
      assert ParseTarget(j) == Ok(target);
      assert Parse(j) == ParseResponse(j);
      if outcome.Failure? {
        assert ErrorFromJson(ErrorToJson(outcome.error)) == Ok(outcome.error);
      }
  }

  /** Whatever a peer sends, one trip through the codec is a normal form: the
      message read is typed, never has null params, and survives any relay. */
  lemma ParsedIsStable(j: Value)
    requires Parse(j).Ok?
    ensures Typed(Parse(j).value) && !ExplicitNullParams(Parse(j).value)
    ensures Parse(Serialize(Parse(j).value)) == Parse(j)
  {
    RoundTrip(Parse(j).value);
  }

  // --------------------------------------------- what is accepted, and as what

  predicate Denotes(r: real, n: int) {
    r == n as real
  }

  /** An id: a string, an integer, or a whole number within 64 bits. */
  ghost predicate GoodId(j: Value) {
    j.Str? || j.Int? || (j.Float? && exists n: int :: IsInt64(n) && Denotes(j.r, n))
  }

  predicate HasString(j: Value, key: string) {
    j.Has(key) && j.At(key).Str?
  }

  predicate GoodError(j: Value) {
    j.Has("code") && (j.At("code").Int? || j.At("code").Float? || j.At("code").Bool?) && HasString(j, "message")
  }

  /** Exactly one of result and error. */
  predicate GoodOutcome(j: Value) {
    if j.Has("result") then !j.Has("error") else j.Has("error") && GoodError(j.At("error"))
  }

  /** A frame as sections 4 and 5 of the JSON-RPC 2.0 specification have it, but
      more liberal: params may be anything, a response may lack its id, and an
      error code may be any number or a Boolean. */
  ghost predicate Conforms(j: Value) {
    && j.Has("jsonrpc") && j.At("jsonrpc") == Str("2.0")
    && (if j.Has("method") then j.At("method").Str? && (j.Has("id") ==> GoodId(j.At("id")))
        else (j.Has("id") && !j.At("id").Null? ==> GoodId(j.At("id"))) && GoodOutcome(j))
  }

  /** Which message a frame carries. */
  predicate Carries(j: Value, m: Message) {
    match m
    case Request(id, name, params) =>
      j.Has("method") && j.At("method") == Str(name) && j.Has("id") && IsIdOf(j.At("id"), id) && IsParams(j, params)
    case Notification(name, params) =>
      j.Has("method") && j.At("method") == Str(name) && !j.Has("id") && IsParams(j, params)
    case Response(target, outcome) =>
      && !j.Has("method")
      && (if j.Has("id") && !j.At("id").Null? then target.Some? && IsIdOf(j.At("id"), target.value) else target.None?)
      && (outcome.Success? ==> j.Has("result") && j.At("result") == outcome.result)
      && (outcome.Failure? ==> j.Has("error") && IsErrorOf(j.At("error"), outcome.error))
  }

  predicate IsIdOf(j: Value, id: RequestId) {
    && (j.Str? ==> id == StrId(j.s))
    && (j.Int? && IsInt64(j.i) ==> id == IntId(j.i))
    && (j.Float? ==> id.IntId? && Denotes(j.r, id.n))
  }

  predicate IsParams(j: Value, params: Option<Value>) {
    if j.Has("params") && !j.At("params").Null? then params == Some(j.At("params")) else params == None
  }

  predicate IsErrorOf(j: Value, e: ErrorObject) {
    && j.Has("code") && (j.At("code").Int? && IsInt32(j.At("code").i) ==> e.code == j.At("code").i)
    && j.Has("message") && j.At("message") == Str(e.message)
    && e.data == if j.Has("data") then j.At("data") else Null
  }

  lemma IdAccepted(j: Value)
    ensures IdFromJson(j).Ok? <==> GoodId(j)
    ensures IdFromJson(j).Ok? ==> IsIdOf(j, IdFromJson(j).value)
  {
    if j.Float? && exists n: int :: IsInt64(n) && Denotes(j.r, n) {
      var n: int :| IsInt64(n) && Denotes(j.r, n);
      assert j.r.Floor == n;
    }
  }

  lemma ErrorAccepted(j: Value)
    ensures ErrorFromJson(j).Ok? <==> GoodError(j)
    ensures ErrorFromJson(j).Ok? ==> IsErrorOf(j, ErrorFromJson(j).value)
  {
  }

  lemma VersionAccepted(j: Value)
    ensures CheckVersion(j).Ok? <==> j.Has("jsonrpc") && j.At("jsonrpc") == Str("2.0")
  {
  }

  lemma CallAccepted(j: Value)
    requires j.Has("method")
    ensures Parse(j).Ok? <==> Conforms(j)
    ensures Parse(j).Ok? ==> Carries(j, Parse(j).value)
  {
    VersionAccepted(j);
    if j.Has("id") {
      IdAccepted(j.At("id"));
    }
  }

  lemma ResponseAccepted(j: Value)
    requires !j.Has("method")
    ensures Parse(j).Ok? <==> Conforms(j)
    ensures Parse(j).Ok? ==> Carries(j, Parse(j).value)
  {
    VersionAccepted(j);
    if j.Has("id") {
      IdAccepted(j.At("id"));
    }
    if j.Has("error") {
      ErrorAccepted(j.At("error"));
    }
  }

  /** A frame is accepted if and only if it conforms, and is then read as the message
      it carries. */
  lemma AcceptedExactly(j: Value)
    ensures Parse(j).Ok? <==> Conforms(j)
    ensures Parse(j).Ok? ==> Carries(j, Parse(j).value)
  {
    if j.Has("method") {
      CallAccepted(j);
    } else {
      ResponseAccepted(j);
    }
  }

  /** What is sent conforms, and carries the message. */
  lemma SentConforms(m: Message)
    requires Typed(m)
    ensures Conforms(Serialize(m))
    ensures !ExplicitNullParams(m) ==> Carries(Serialize(m), m)
  {
    RoundTrip(m);
    AcceptedExactly(Serialize(m));
  }
}
