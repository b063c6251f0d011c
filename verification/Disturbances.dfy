/** What can go wrong when a new connection arrives after an answer, or its failure, has reached the
    request in flight: line 617 of client.go registers the request again, and a further answer, or the
    end of the loop, then closes its channel a second time or finds it full. */
module Disturbances {
  import opened Basics
  import opened Channels
  import opened Ids
  import opened RequestTable
  import opened Dispatch
  import opened RequestSafety
  import opened Connections
  import opened ClientProtocol
  import opened ClientGuarantees
  import opened RequestFate
  import opened RequestLoss
  import opened RequestRetirement
  import opened Runs

  /** Without a disturbance no channel is misused, whatever the peer sends. */
  lemma FaultNeedsDisturbance<R>(steps: seq<Step<R>>, r: R)
    requires Run(Init(), steps) && Exec(Init(), steps).HasOp(r)
    requires Exec(Init(), steps).OpOf(r).resp.faults != []
    ensures !Calm(Init(), steps)
  {
    if Calm(Init(), steps) {
      ChannelSafety(steps);
    }
  }

  // A disturbance can be driven to a fault.

  /** The loop reads from a fresh connection, and waits for `r` and nobody else. */
  ghost predicate Registered<R>(s: Sys<R>, r: R, op: Op) {
    && s.WellFormed() && s.phase.Looping? && s.loop.reading
    && s.conns[s.conn].reader.Reading?
    && s.HasOp(r) && s.OpOf(r) == op
    && s.loop.table.respWait == map id | id in op.ids :: r
  }

  /** A reader is being drained on behalf of `r`. */
  ghost predicate DrainsFor<R>(s: Sys<R>, r: R) {
    && s.WellFormed() && LinksInv(s.Net())
    && s.phase.Swapping? && s.loop.lastOp == Some(r) && s.HasOp(r)
  }

  lemma DrainsOn<R>(s: Sys<R>, r: R)
    requires DrainsFor(s, r) && !s.conns[s.conn].reader.HasErr?
    ensures Enabled(s, DrainStep(s))
    ensures var s' := Apply(s, DrainStep(s));
            DrainsFor(s', r) && s'.OpOf(r) == s.OpOf(r) && Draining(s') < Draining(s)
  {
    assert CurrentInv(s.Net());
    if s.conns[s.conn].reader.HasMsgs? {
      KeepReader(s.Net(), Reading);
    } else {
      KeepReader(s.Net(), HasErr(ErrDead));
    }
  }

  lemma DrainsOut<R>(s: Sys<R>, r: R)
    requires DrainsFor(s, r) && s.conns[s.conn].reader.HasErr?
    ensures Enabled(s, DrainStep(s)) && Registered(Apply(s, DrainStep(s)), r, s.OpOf(r))
  {
    assert CurrentInv(s.Net()) && IncomingInv(s.Net());
  }

  lemma DrainToEnd<R>(s: Sys<R>, r: R) returns (more: seq<Step<R>>)
    requires DrainsFor(s, r)
    ensures CalmRun(s, more) && Registered(Exec(s, more), r, s.OpOf(r))
    decreases Draining(s)
  {
    var st := DrainStep(s);
    if s.conns[s.conn].reader.HasErr? {
      DrainsOut(s, r);
      more := [st];
      assert Exec(Apply(s, st), []) == Apply(s, st);
    } else {
      DrainsOn(s, r);
      more := DrainToEnd(Apply(s, st), r);
      more := [st] + more;
    }
  }

  /** The reconnection itself, after which there may be a reader to drain. */
  lemma ReregisteredLive<R>(s: Sys<R>, r: R)
    requires Inv(s) && CallerEnabled(s, r, Reconnected) && s.loop.reading
    ensures DrainsFor(DoReconnected(s, r), r) && DoReconnected(s, r).OpOf(r) == s.OpOf(r)
  {
    OffererIsLastOp(s, r);
    KeepSwappedOut(s.Net());
  }

  lemma ReregisteredIdle<R>(s: Sys<R>, r: R)
    requires Inv(s) && CallerEnabled(s, r, Reconnected) && !s.loop.reading
    ensures Registered(DoReconnected(s, r), r, s.OpOf(r))
  {
    OffererIsLastOp(s, r);
    assert IncomingInv(s.Net());
  }

  lemma ReregisteredInTheEnd<R>(s: Sys<R>, r: R) returns (more: seq<Step<R>>)
    requires Inv(s) && CallerEnabled(s, r, Reconnected)
    ensures CalmRun(DoReconnected(s, r), more)
    ensures Registered(Exec(DoReconnected(s, r), more), r, s.OpOf(r))
  {
    if s.loop.reading {
      ReregisteredLive(s, r);
      more := DrainToEnd(DoReconnected(s, r), r);
    } else {
      ReregisteredIdle(s, r);
      more := [];
    }
  }

  // Answering every id overfills the channel.

  function Reply(id: Id): Response {
    Response(id, None, "", None)
  }

  ghost predicate WaitsFrom<R>(t: Table<R>, r: R, k: nat) {
    && t.Closed() && r in t.ops && !t.ops[r].isSub && !t.ops[r].resp.closed && Distinct(t.ops[r].ids)
    && forall i :: k <= i < |t.ops[r].ids| ==> WaitedFor(t, r, t.ops[r].ids[i])
  }

  lemma {:induction false} Overfills<R>(t: Table<R>, r: R, k: nat, ms: seq<Response>)
    requires WaitsFrom(t, r, k) && k <= |t.ops[r].ids| && |ms| == |t.ops[r].ids| - k
    requires forall i :: 0 <= i < |ms| ==> ms[i].id == t.ops[r].ids[k + i]
    requires t.ops[r].resp.faults != [] || |t.ops[r].resp.sent| + |ms| > t.ops[r].resp.taken + t.ops[r].resp.cap
    requires |t.ops[r].resp.sent| <= t.ops[r].resp.taken + t.ops[r].resp.cap
    ensures var t' := RespondAll(t, ms); r in t'.ops && t'.ops[r].resp.faults != []
    decreases |ms|
  {
    if ms != [] {
      var t' := Respond(t, ms[0]);
      assert WaitedFor(t, r, t.ops[r].ids[k]);
      assert forall i :: k + 1 <= i < |t.ops[r].ids| ==> WaitedFor(t, r, t.ops[r].ids[i]);
      Overfills(t', r, k + 1, ms[1..]);
    }
  }

  lemma AnswersOverfill<R>(s: Sys<R>, r: R) returns (more: seq<Step<R>>)
    requires s.HasOp(r) && Registered(s, r, s.OpOf(r)) && Distinct(s.OpOf(r).ids)
    requires var op := s.OpOf(r);
             !op.isSub && !op.resp.closed && op.resp.sent != [] && op.resp.taken == 0
             && |op.resp.sent| <= op.resp.cap == |op.ids|
    ensures CalmRun(s, more) && Exec(s, more).HasOp(r) && Exec(s, more).OpOf(r).resp.faults != []
  {
    var ids := s.OpOf(r).ids;
    var ms := seq(|ids|, i requires 0 <= i < |ids| => Reply(ids[i]));
    var st1: Step<R> := OnConn(s.conn, PeerSends(ms));
    var s1 := Apply(s, st1);
    var st2: Step<R> := OnConn(s.conn, DispatchMsgs);
    more := [st1, st2];
    Overfills(s.loop.table, r, 0, ms);
    assert Exec(Apply(s1, st2), []) == Apply(s1, st2);
    assert [st1, st2][1..] == [st2] && [st2][1..] == [];
  }

  ghost predicate ClosedAgain<R>(s: Sys<R>, r: R) {
    s.HasOp(r) && ClosedTwice in s.OpOf(r).resp.faults
  }

  lemma CloseClosesTwice<R>(s: Sys<R>, r: R) returns (more: seq<Step<R>>)
    requires s.HasOp(r) && Registered(s, r, s.OpOf(r))
    requires s.OpOf(r).resp.closed && s.OpOf(r).ids != []
    ensures CalmRun(s, more) && ClosedAgain(Exec(s, more), r)
  {
    more := [Close];
    assert WaitedFor(s.loop.table, r, s.OpOf(r).ids[0]);
    assert Exec(Apply(s, Close), []) == Apply(s, Close);
  }

  ghost predicate Faulty<R>(s: Sys<R>, r: R) {
    s.HasOp(r) && s.OpOf(r).resp.faults != []
  }

  lemma RegisteredCanFault<R>(s: Sys<R>, r: R, op: Op) returns (more: seq<Step<R>>)
    requires Registered(s, r, op) && op.Touched() && OverfullSoon(op)
    ensures CalmRun(s, more) && Faulty(Exec(s, more), r)
    ensures op.resp.closed ==> ClosedAgain(Exec(s, more), r)
  {
    if op.resp.closed {
      more := CloseClosesTwice(s, r);
    } else {
      more := AnswersOverfill(s, r);
    }
  }

  /** As many answers as ids have room, and at least one has come, unless the channel is closed. */
  ghost predicate OverfullSoon(op: Op) {
    && op.ids != [] && Distinct(op.ids)
    && (!op.resp.closed ==> !op.isSub && op.resp.taken == 0 && |op.resp.sent| <= op.resp.cap == |op.ids|)
  }

  lemma TouchedIsOverfull<R>(steps: seq<Step<R>>, r: R)
    requires CalmRun(Init(), steps) && CallerEnabled(Exec(Init(), steps), r, Reconnected)
    requires Exec(Init(), steps).HasOp(r) && Exec(Init(), steps).OpOf(r).Touched()
    ensures Inv(Exec(Init(), steps)) && OverfullSoon(Exec(Init(), steps).OpOf(r))
  {
    var s := Exec(Init(), steps);
    InitInv<R>();
    RunKeepsInv(Init(), steps);
    RunSettled(Init(), steps, r);
    assert OpAt(s.loop.table.ops, s.pc, s.wrote, s.drawn, r);
  }

  lemma ReconnectCanFault<R>(s: Sys<R>, r: R) returns (more: seq<Step<R>>)
    requires Inv(s) && CallerEnabled(s, r, Reconnected) && s.OpOf(r).Touched() && OverfullSoon(s.OpOf(r))
    ensures CalmRun(DoReconnected(s, r), more) && Faulty(Exec(DoReconnected(s, r), more), r)
    ensures s.OpOf(r).resp.closed ==> ClosedAgain(Exec(DoReconnected(s, r), more), r)
  {
    var first := ReregisteredInTheEnd(s, r);
    var s' := Exec(DoReconnected(s, r), first);
    var last := RegisteredCanFault(s', r, s.OpOf(r));
    more := first + last;
    RunConcat(DoReconnected(s, r), first, last);
  }

  ghost predicate CanFault<R(!new)>(s: Sys<R>, r: R) {
    exists more :: CalmRun(s, more) && Faulty(Exec(s, more), r)
  }

  /** In every run that has been calm so far, when a new connection arrives: unless another disturbance
      follows, the channel of the request in flight can be misused if and only if something has reached
      it before. */
  lemma FaultsExactlyIfTouched<R(!new)>(steps: seq<Step<R>>, r: R)
    requires CalmRun(Init(), steps) && CallerEnabled(Exec(Init(), steps), r, Reconnected)
    requires Exec(Init(), steps).HasOp(r)
    ensures CanFault(Apply(Exec(Init(), steps), ByCaller(r, Reconnected)), r) <==> Exec(Init(), steps).OpOf(r).Touched()
  {
    var s, st := Exec(Init(), steps), ByCaller(r, Reconnected);
    InitInv<R>();
    RunKeepsInv(Init(), steps);
    if s.OpOf(r).Touched() {
      TouchedIsOverfull(steps, r);
      var more := ReconnectCanFault(s, r);
      assert CalmRun(Apply(s, st), more) && Faulty(Exec(Apply(s, st), more), r);
    } else {
      KeepStep(s, st);
      forall more | CalmRun(Apply(s, st), more) ensures !Faulty(Exec(Apply(s, st), more), r) {
        NoFault(Apply(s, st), more, r);
      }
    }
  }

  lemma NoFault<R>(s: Sys<R>, more: seq<Step<R>>, r: R)
    requires Inv(s) && CalmRun(s, more)
    ensures !Faulty(Exec(s, more), r)
  {
    RunKeepsInv(s, more);
    var s' := Exec(s, more);
    assert s'.HasOp(r) ==> OpAt(s'.loop.table.ops, s'.pc, s'.wrote, s'.drawn, r);
  }

  // ---------------------------------------------------------------------------------------------
  // It happens

  /** `q` has made a call of `Notify` whose write has failed, while the reader lives on. */
  ghost function Notified<R>(q: R, e: Error): Sys<R> {
    Init<R>().(loop := Init<R>().loop.(table := Table(map[q := Op([], None, Make(0), false)], map[])),
               pc := map[q := Returned], wrote := map[q := 0], writeConn := None,
               reqSent := Make(1).Send(Some(e)).Receive())
  }

  /** The call of `q`, at `p`. */
  ghost function Notifying<R>(q: R, p: Pc): Sys<R> {
    Init<R>().(loop := Loop(Table(map[q := Op([], None, Make(0), false)], map[]),
                            if p.BeforeHandover() then None else Some(q), p.BeforeHandover(), true),
               pc := map[q := p], wrote := if p.BeforeWrite() then map[] else map[q := 0],
               writeConn := if p.Wrote? then None else Some(0))
  }

  lemma NotifyCreated<R>(q: R) returns (steps: seq<Step<R>>)
    ensures Reached(steps, Notifying(q, Building(0)))
  {
    assert Reached([], Init<R>());
    steps := Then([], Init<R>(), ByCaller(q, Create(0, false)));
  }

  lemma NotifyHandedOver<R>(q: R, steps: seq<Step<R>>) returns (steps': seq<Step<R>>)
    requires Reached(steps, Notifying(q, Building(0)))
    ensures Reached(steps', Notifying(q, Holding))
  {
    steps' := Then(steps, Notifying(q, Building(0)), ByCaller(q, Submit));
    steps' := Then(steps', Notifying(q, AtReqInit), ByCaller(q, Handover));
    assert Add(Notifying(q, AtReqInit).loop.table, q).respWait == map[];
  }

  lemma NotifyBegun<R>(q: R, steps: seq<Step<R>>) returns (steps': seq<Step<R>>)
    requires Reached(steps, Notifying(q, Holding))
    ensures Reached(steps', Notifying(q, Writing))
  {
    steps' := Then(steps, Notifying(q, Holding), ByCaller(q, BeginWrite));
  }

  lemma NotifyWritten<R>(q: R, e: Error, steps: seq<Step<R>>) returns (steps': seq<Step<R>>)
    requires Reached(steps, Notifying(q, Writing))
    ensures Reached(steps', Notifying(q, Wrote(Some(e))))
  {
    steps' := Then(steps, Notifying(q, Writing), ByCaller(q, FinishWrite(Some(e))));
  }

  lemma NotifySignalled<R>(q: R, e: Error, steps: seq<Step<R>>) returns (steps': seq<Step<R>>)
    requires Reached(steps, Notifying(q, Wrote(Some(e))))
    ensures Reached(steps', Notified(q, e))
  {
    var s := Notifying(q, Wrote(Some(e)));
    steps' := Then(steps, s, ByCaller(q, SignalSent));
    s := SetPc(s, q, Returned).(reqSent := Make(1).Send(Some(e)));
    steps' := Then(steps', s, ReqSent);
    assert Remove(s.loop.table, q) == s.loop.table;
  }

  lemma NotifyFails<R>(q: R, e: Error) returns (steps: seq<Step<R>>)
    ensures Reached(steps, Notified(q, e))
  {
    steps := NotifyCreated(q);
    steps := NotifyHandedOver(q, steps);
    steps := NotifyBegun(q, steps);
    steps := NotifyWritten(q, e, steps);
    steps := NotifySignalled(q, e, steps);
  }

  /** Then `r` subscribes; `table` and `pc` tell how far it has come. */
  ghost function Subscribing<R>(q: R, e: Error, r: R, op: Op, waited: bool, rd: Reader, p: Pc): Sys<R> {
    Notified(q, e).(loop := Loop(Table(Notified(q, e).loop.table.ops[r := op],
                                       if waited then map[NextId(0) := r] else map[]),
                                 if p.BeforeHandover() then None else Some(r), p.BeforeHandover(), true),
                    pc := Notified(q, e).pc[r := p],
                    counter := |op.ids|, drawn := if op.ids == [] then map[] else map[NextId(0) := Some(r)],
                    conns := [Conn(rd, 0)] + if p.Offering? then [Conn(NotStarted, 0)] else [])
  }

  const BLANK := Op([], None, Make(0), true)

  const ASKING := BLANK.(ids := [NextId(0)])

  lemma SubscribeCreated<R>(q: R, e: Error, r: R, steps: seq<Step<R>>) returns (steps': seq<Step<R>>)
    requires q != r && Reached(steps, Notified(q, e))
    ensures Reached(steps', Subscribing(q, e, r, BLANK, false, Reading, Building(1)))
  {
    steps' := Then(steps, Notified(q, e), ByCaller(r, Create(1, true)));
  }

  lemma SubscribeDrawn<R>(q: R, e: Error, r: R, steps: seq<Step<R>>) returns (steps': seq<Step<R>>)
    requires q != r && Reached(steps, Subscribing(q, e, r, BLANK, false, Reading, Building(1)))
    ensures Reached(steps', Subscribing(q, e, r, ASKING, false, Reading, Building(0)))
  {
    var s := Subscribing(q, e, r, BLANK, false, Reading, Building(1));
    assert BLANK.ids + [NextId(0)] == [NextId(0)];
    assert s.OpOf(r) == BLANK;
    assert s.loop.table.ops[r := ASKING]
        == Subscribing(q, e, r, ASKING, false, Reading, Building(0)).loop.table.ops;
    steps' := Then(steps, s, ByCaller(r, Draw));
  }

  lemma SubscribeSubmitted<R>(q: R, e: Error, r: R, steps: seq<Step<R>>) returns (steps': seq<Step<R>>)
    requires q != r && Reached(steps, Subscribing(q, e, r, ASKING, false, Reading, Building(0)))
    ensures Reached(steps', Subscribing(q, e, r, ASKING, false, Reading, AtReqInit))
  {
    steps' := Then(steps, Subscribing(q, e, r, ASKING, false, Reading, Building(0)), ByCaller(r, Submit));
  }

  lemma SubscribeHandedOver<R>(q: R, e: Error, r: R, steps: seq<Step<R>>) returns (steps': seq<Step<R>>)
    requires q != r && Reached(steps, Subscribing(q, e, r, ASKING, false, Reading, AtReqInit))
    ensures Reached(steps', Subscribing(q, e, r, ASKING, true, Reading, Holding))
  {
    var s := Subscribing(q, e, r, ASKING, false, Reading, AtReqInit);
    AskingAdded(s.loop.table, r);
    HandoverOf(s, Subscribing(q, e, r, ASKING, true, Reading, Holding), r);
    steps' := Then(steps, s, ByCaller(r, Handover));
  }

  lemma AskingAdded<R>(t: Table<R>, r: R)
    requires r in t.ops && t.ops[r] == ASKING && t.respWait == map[]
    ensures Add(t, r).respWait == map[NextId(0) := r]
  {
  }

  lemma HandoverOf<R>(s: Sys<R>, s': Sys<R>, r: R)
    requires s.HasOp(r) && Add(s.loop.table, r) == s'.loop.table
    requires s' == s.(loop := Loop(s'.loop.table, Some(r), false, s.loop.reading), pc := s.pc[r := Holding])
    ensures DoHandover(s, r) == s'
  {
  }

  /** The peer answers before the write has begun. */
  lemma AnswerSent<R>(q: R, e: Error, r: R, m: Response, steps: seq<Step<R>>) returns (steps': seq<Step<R>>)
    requires q != r && Reached(steps, Subscribing(q, e, r, ASKING, true, Reading, Holding))
    ensures Reached(steps', Subscribing(q, e, r, ASKING, true, HasMsgs([m]), Holding))
  {
    steps' := Then(steps, Subscribing(q, e, r, ASKING, true, Reading, Holding), OnConn(0, PeerSends([m])));
  }

  lemma AnswerHandled<R>(q: R, e: Error, r: R, m: Response)
    requires q != r && m.id == NextId(0)
    ensures DoDispatchMsgs(Subscribing(q, e, r, ASKING, true, HasMsgs([m]), Holding), 0)
            == Subscribing(q, e, r, ASKING.Answered(m), false, Reading, Holding)
  {
    var s := Subscribing(q, e, r, ASKING, true, HasMsgs([m]), Holding);
    assert [m][1..] == [] && s.loop.table.respWait - {m.id} == map[];
    assert RespondAll(s.loop.table, [m]) == Respond(s.loop.table, m);
  }

  lemma AnswerRead<R>(q: R, e: Error, r: R, m: Response, steps: seq<Step<R>>) returns (steps': seq<Step<R>>)
    requires q != r && m.id == NextId(0)
    requires Reached(steps, Subscribing(q, e, r, ASKING, true, HasMsgs([m]), Holding))
    ensures Reached(steps', Subscribing(q, e, r, ASKING.Answered(m), false, Reading, Holding))
  {
    steps' := Then(steps, Subscribing(q, e, r, ASKING, true, HasMsgs([m]), Holding), OnConn(0, DispatchMsgs));
    AnswerHandled(q, e, r, m);
  }

  lemma SubscribeDialled<R>(q: R, e: Error, r: R, op: Op, steps: seq<Step<R>>) returns (steps': seq<Step<R>>)
    requires q != r && Reached(steps, Subscribing(q, e, r, op, false, Reading, Holding))
    ensures Reached(steps', Subscribing(q, e, r, op, false, Reading, Offering(1)))
  {
    steps' := Then(steps, Subscribing(q, e, r, op, false, Reading, Holding), ByCaller(r, Dial));
  }

  lemma AnsweredEarly<R>(q: R, r: R, e: Error, m: Response) returns (steps: seq<Step<R>>)
    requires q != r && m.id == NextId(0)
    ensures Reached(steps, Subscribing(q, e, r, ASKING.Answered(m), false, Reading, Offering(1)))
  {
    steps := NotifyFails(q, e);
    steps := SubscribeCreated(q, e, r, steps);
    steps := SubscribeDrawn(q, e, r, steps);
    steps := SubscribeSubmitted(q, e, r, steps);
    steps := SubscribeHandedOver(q, e, r, steps);
    steps := AnswerSent(q, e, r, m, steps);
    steps := AnswerRead(q, e, r, m, steps);
    steps := SubscribeDialled(q, e, r, ASKING.Answered(m), steps);
  }

  /** A subscription request that is answered before its write has begun, and then reconnects: a run of
      the machine in which its channel is closed twice. */
  lemma FaultyRun<R>(q: R, r: R, e: Error, m: Response) returns (steps: seq<Step<R>>)
    requires q != r && m.id == NextId(0)
    ensures Run(Init(), steps) && ClosedAgain(Exec(Init(), steps), r)
  {
    steps := AnsweredEarly(q, r, e, m);
    TouchedIsOverfull(steps, r);
    var more := ReconnectCanFault(Exec(Init(), steps), r);
    RunExtend(Init(), steps, ByCaller(r, Reconnected));
    RunConcat(Init(), steps + [ByCaller(r, Reconnected)], more);
    steps := steps + [ByCaller(r, Reconnected)] + more;
  }
}
