// A whole call between two fresh Sessions, and a notification.
module SessionCalls {
  import opened Wrappers
  import opened Json
  import opened JsonRpc
  import opened SessionMachine
  import opened TwoSessions

  lemma {:induction false} NetAppend(n: Net, xs: seq<NetAction>, x: NetAction)
    requires NetRuns(n, xs) && NetEnabled(NetEnd(n, xs), x)
    ensures NetRuns(n, xs + [x]) && NetEnd(n, xs + [x]) == NetDo(NetEnd(n, xs), x)
    decreases |xs|
  {
    if xs == [] {
      assert xs + [x] == [x] && [x][1..] == [];
    } else {
      NetAppend(NetDo(n, xs[0]), xs[1..], x);
      assert (xs + [x])[1..] == xs[1..] + [x];
    }
  }

  // ----------------------------------------------------- the caller's side

  /** A caller whose one request has been sent and is parked. */
  ghost predicate Awaits(s: Session, id: RequestId, m: Message) {
    s.sent == [m] && s.received == 0 && id in s.pending && s.removed == [] && s.lock.Free?
  }

  lemma SendFirst(d: int, name: string, params: Value, timeout: int, b: Session) returns (xs: seq<NetAction>)
    ensures NetRuns(Net(Init(d), b), xs)
    ensures var n := NetEnd(Net(Init(d), b), xs);
      && n.b == b && Awaits(n.a, IntId(1), Request(IntId(1), name, OptParams(params)))
  {
    var id, n := IntId(1), Net(Init(d), b);
    var issue, take, park, send :=
      AtA(Issue(name, params, timeout)), AtA(Call(id, CallStep.Lock)), AtA(Call(id, Unlock)), AtA(Call(id, SendOk));
    var s1 := DoIssue(Init(d), name, params, timeout);
    var s2 := DoCall(s1, id, CallStep.Lock);
    var s3 := DoCall(s2, id, Unlock);
    xs := [];
    NetAppend(n, xs, issue);
    xs := xs + [issue];
    NetAppend(n, xs, take);
    xs := xs + [take];
    NetAppend(n, xs, park);
    xs := xs + [park];
    assert NetEnd(n, xs).a == s3;
    NetAppend(n, xs, send);
    xs := xs + [send];
  }

  // ------------------------------------------------------ the peer's side

  /** A peer that has read the request, and whose only frame is the reply. */
  ghost predicate HasReplied(s: Session, id: RequestId, outcome: Outcome) {
    s.sent == [Response(Some(id), outcome)]
  }

  lemma ReadRequest(n: Net, m: Message)
    requires n.a.sent == [m] && n.b.received == 0 && m.Request? && CleanMessage(m)
    ensures NetEnabled(n, ToB)
    ensures NetDo(n, ToB).a == n.a && NetDo(n, ToB).b == DoReceive(n.b, Frame(m))
  {
    RoundTrip(m);
  }

  lemma ServeFirst(n: Net, xs: seq<NetAction>, m: Message, exit: Exit, d: int) returns (ys: seq<NetAction>)
    requires NetRuns(n, xs) && NetEnd(n, xs).b == Init(d) && NetEnd(n, xs).a.sent == [m]
    requires m.Request? && CleanMessage(m) && TypedExit(exit)
    ensures NetRuns(n, ys) && NetEnd(n, ys).a == NetEnd(n, xs).a
    ensures HasReplied(NetEnd(n, ys).b, m.id, OutcomeOf(exit, m.name))
  {
    ReadRequest(NetEnd(n, xs), m);
    NetAppend(n, xs, ToB);
    var got := DoReceive(Init(d), Frame(m));
    assert got.workers == map[0 := Handling(m)] && got.sent == [];
    NetAppend(n, xs + [ToB], AtB(Work(0, Finish(exit))));
    var ran := DoWork(got, 0, Finish(exit));
    assert ran.workers[0] == Replying(m.id, OutcomeOf(exit, m.name)) && ran.sent == [];
    NetAppend(n, xs + [ToB] + [AtB(Work(0, Finish(exit)))], AtB(Work(0, Reply(true))));
    ys := xs + [ToB] + [AtB(Work(0, Finish(exit)))] + [AtB(Work(0, Reply(true)))];
  }

  // ------------------------------------------------------- the way back

  /** What the caller is told for the way the handler ended. */
  predicate Outcomes(exit: Exit, name: string, v: Verdict) {
    if exit.Returned? then v == Resolved(exit.result) else v.PeerError? && Reports(exit, name, v.error)
  }

  lemma ReadReply(n: Net, id: RequestId, m: Message, outcome: Outcome)
    requires Awaits(n.a, id, m) && HasReplied(n.b, id, outcome) && CleanMessage(Response(Some(id), outcome))
    ensures NetEnabled(n, ToA)
    ensures NetDo(n, ToA).a.removed == [Removal(id, VerdictOf(outcome), Reader)]
  {
    RoundTrip(Response(Some(id), outcome));
  }

  lemma VerdictReports(exit: Exit, name: string)
    ensures Outcomes(exit, name, VerdictOf(OutcomeOf(exit, name)))
  {
    if !exit.Returned? {
      OutcomeReports(exit, name, OutcomeOf(exit, name).error);
    }
  }

  lemma ReplyClean(id: RequestId, exit: Exit, name: string)
    requires TypedId(id) && TypedExit(exit)
    ensures CleanMessage(Response(Some(id), OutcomeOf(exit, name)))
  {
  }

  /** Calls complete: for any method, params and end of the handler there is a run of
      two fresh Sessions in which the caller is told just that. */
  lemma CallCompletes(da: int, db: int, name: string, params: Value, timeout: int, exit: Exit)
    returns (xs: seq<NetAction>)
    requires TypedExit(exit)
    ensures NetRuns(Net(Init(da), Init(db)), xs)
    ensures var s := NetEnd(Net(Init(da), Init(db)), xs).a;
      |s.removed| == 1 && s.removed[0].id == IntId(1) && Outcomes(exit, name, s.removed[0].verdict)
  {
    var n, id, m := Net(Init(da), Init(db)), IntId(1), Request(IntId(1), name, OptParams(params));
    var there := SendFirst(da, name, params, timeout, Init(db));
    var served := ServeFirst(n, there, m, exit, db);
    var outcome := OutcomeOf(exit, name);
    ReplyClean(id, exit, name);
    ReadReply(NetEnd(n, served), id, m, outcome);
    NetAppend(n, served, ToA);
    VerdictReports(exit, name);
    xs := served + [ToA];
  }

  /** A notification is one frame, read by the peer with its name and params. */
  lemma NotifyArrives(s: Session, name: string, params: Value)
    ensures var s' := DoNotify(s, name, params); var m := s'.sent[|s.sent|];
      && s'.sent == s.sent + [m]
      && ReadFrame(Serialize(m)) == Frame(m)
      && m.Notification? && m.name == name && HandlerParams(m) == params
  {
    RoundTrip(Notification(name, OptParams(params)));
  }
}
