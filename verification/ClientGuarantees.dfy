/** What the invariant of `ClientProtocol` means for the users of the client, in every run. */
module ClientGuarantees {
  import opened Basics
  import opened Ids
  import opened RequestTable
  import opened RequestSafety
  import opened Connections
  import opened ClientProtocol

  /** In every run, no channel of a request is closed twice, sent to after its close, or sent to
      without room; every request that is still waited for has an open channel; and the loop never
      trips over a missing in-flight request or connection. */
  lemma ChannelSafety<R>(steps: seq<Step<R>>)
    requires CalmRun(Init(), steps)
    ensures var s := Exec(Init(), steps);
            && !s.crashed
            && s.reqSent.faults == []
            && (forall r :: r in s.loop.table.ops ==> s.OpOf(r).resp.faults == [])
            && (forall id :: id in s.loop.table.respWait ==>
                  s.HasOp(s.loop.table.respWait[id]) && !s.OpOf(s.loop.table.respWait[id]).resp.closed)
  {
    InitInv<R>();
    RunKeepsInv(Init(), steps);
    var s := Exec(Init(), steps);
    forall r | r in s.loop.table.ops ensures s.OpOf(r).resp.faults == [] {
      assert OpAt(s.loop.table.ops, s.pc, s.wrote, s.drawn, r);
    }
    forall id | id in s.loop.table.respWait ensures !s.OpOf(s.loop.table.respWait[id]).resp.closed {
      assert PendingAt(s.loop.table, s.pc, id);
    }
  }

  /** In every run, whatever the peer repeats or sends late: each response that reaches a caller
      carries an id of its own request, no id reaches it twice, so at most as many responses arrive
      as the request has ids, and never one that belongs to another request. */
  lemma DeliveryBound<R>(steps: seq<Step<R>>, r: R)
    requires CalmRun(Init(), steps) && Exec(Init(), steps).HasOp(r)
    ensures var s := Exec(Init(), steps); var sent := s.OpOf(r).resp.sent;
            && |sent| <= |s.OpOf(r).ids|
            && Distinct(s.OpOf(r).ids) && AnswersTo(s.OpOf(r).ids, sent)
            && (forall i, q :: 0 <= i < |sent| && q in s.loop.table.ops && q != r ==> sent[i].id !in s.OpOf(q).ids)
  {
    InitInv<R>();
    RunKeepsInv(Init(), steps);
    var s := Exec(Init(), steps);
    assert OpAt(s.loop.table.ops, s.pc, s.wrote, s.drawn, r);
    var sent := s.OpOf(r).resp.sent;
    var got := seq(|sent|, i requires 0 <= i < |sent| => sent[i].id);
    DistinctBound(got, s.OpOf(r).ids);
    forall i, q | 0 <= i < |sent| && q in s.loop.table.ops && q != r ensures sent[i].id !in s.OpOf(q).ids {
      assert OpAt(s.loop.table.ops, s.pc, s.wrote, s.drawn, q);
    }
  }

  /** In every run, the loop listens for requests exactly while none is in flight; a request is in
      flight exactly while one caller is between its handover and its signal, or its signal lies in
      the slot; two callers are never there at once, so `writeConn` has one user. */
  lemma WriteLock<R>(steps: seq<Step<R>>)
    requires CalmRun(Init(), steps)
    ensures var s := Exec(Init(), steps);
            && (s.loop.lockFree <==> s.loop.lastOp.None?)
            && (forall q, r :: q in s.pc && r in s.pc && s.pc[q].InWrite() && s.pc[r].InWrite() ==> q == r)
            && (s.loop.lastOp.Some? <==>
                  (exists r :: r in s.pc && s.pc[r].InWrite()) != (s.reqSent.taken < |s.reqSent.sent|))
            && |s.reqSent.sent| - s.reqSent.taken <= 1
            && (forall r :: r in s.pc && s.pc[r].InWrite() ==> s.loop.lastOp == Some(r))
  {
    InitInv<R>();
    RunKeepsInv(Init(), steps);
  }

  /** In every run, `reading` says whether the current connection has a live reader, no other
      connection has one, no connection is closed twice, and once the loop has quit every connection
      ever dialled is closed, except one that a caller is just about to close itself. */
  lemma ConnectionLifecycle<R>(steps: seq<Step<R>>)
    requires CalmRun(Init(), steps)
    ensures var s := Exec(Init(), steps);
            && s.conn < |s.conns|
            && (s.phase.Serving() ==> (s.loop.reading <==> s.conns[s.conn].reader.Live()))
            && (forall c :: 0 <= c < |s.conns| && s.conns[c].reader.Live() ==> c == s.conn)
            && (forall c :: 0 <= c < |s.conns| ==> s.conns[c].closes <= 1)
            && (s.phase.Quit? ==> forall c :: 0 <= c < |s.conns| ==>
                  && !s.conns[c].reader.Live()
                  && (s.conns[c].closes == 1 || exists r :: r in s.pc && s.pc[r] == Offering(c)))
  {
    InitInv<R>();
    RunKeepsInv(Init(), steps);
    var s := Exec(Init(), steps);
    forall c | 0 <= c < |s.conns|
      ensures s.conns[c].closes <= 1
      ensures s.conns[c].reader.Live() ==> c == s.conn
      ensures s.phase.Quit? && s.conns[c].closes == 0 ==> exists r :: r in s.pc && s.pc[r] == Offering(c)
    {
      assert ConnInv(s.Net(), c);
    }
  }

  /** In every run, when a `wait` on a request that is not a subscription can return, it returns a
      response with one of the request's ids, or a non-nil error. */
  lemma NoNilResult<R>(steps: seq<Step<R>>, r: R)
    requires CalmRun(Init(), steps)
    requires Exec(Init(), steps).HasOp(r) && !Exec(Init(), steps).OpOf(r).isSub
    requires Exec(Init(), steps).OpOf(r).resp.CanReceive()
    ensures var op := Exec(Init(), steps).OpOf(r); var (resp, err) := WaitResult(op);
            && (resp.None? ==> err.Some?)
            && (resp.Some? ==> resp.value.id in op.ids)
  {
    InitInv<R>();
    RunKeepsInv(Init(), steps);
    var s := Exec(Init(), steps);
    assert OpAt(s.loop.table.ops, s.pc, s.wrote, s.drawn, r);
  }

  /** Every id of `r`, and nothing else, is waited for. */
  ghost predicate WaitsForExactly<R>(t: Table<R>, r: R) {
    && r in t.ops
    && (forall id :: id in t.respWait <==> id in t.ops[r].ids)
    && (forall id :: id in t.respWait ==> t.respWait[id] == r)
  }

  /** `r` was waited for in `t`, and `t'` has closed its channel, once, with error `e`. */
  ghost predicate ClosedWith<R>(t: Table<R>, t': Table<R>, r: R, e: Error) {
    && r in t.ops && r in t'.ops
    && !t.ops[r].resp.closed
    && t'.ops[r] == t.ops[r].(err := Some(e), resp := t.ops[r].resp.(closed := true))
  }

  /** In every run, when a new connection arrives it is on behalf of the request in flight.  With a
      live reader all other pending requests are closed with `errClientReconnected` and the request
      in flight is left alone; without one, the new handler waits for exactly that request. */
  lemma ReconnectTransfers<R>(steps: seq<Step<R>>, r: R)
    requires CalmRun(Init(), steps) && CallerEnabled(Exec(Init(), steps), r, Reconnected)
    ensures var s := Exec(Init(), steps); var s' := Apply(s, ByCaller(r, Reconnected));
            && s.loop.lastOp == Some(r) && s'.loop.lastOp == Some(r)
            && s'.writeConn == Some(s.pc[r].next)
            && s.HasOp(r) && s'.HasOp(r) && s'.OpOf(r) == s.OpOf(r)
            && (s.loop.reading ==>
                  && s'.phase == Swapping(s.pc[r].next)
                  && forall q :: q in s.loop.table.respWait.Values && q != r ==>
                       ClosedWith(s.loop.table, s'.loop.table, q, ErrClientReconnected))
            && (!s.loop.reading ==>
                  s'.phase.Looping? && s'.conn == s.pc[r].next && WaitsForExactly(s'.loop.table, r))
  {
    InitInv<R>();
    RunKeepsInv(Init(), steps);
    var s := Exec(Init(), steps);
    OffererIsLastOp(s, r);
    forall q | q in s.loop.table.respWait.Values ensures s.HasOp(q) && !s.OpOf(q).resp.closed {
      var id :| id in s.loop.table.respWait && s.loop.table.respWait[id] == q;
      assert PendingAt(s.loop.table, s.pc, id);
    }
  }

  /** In every run, when the old reader's error ends the draining, the new handler waits for exactly
      the request in flight, on the connection that this request is written to. */
  lemma ReconnectCompletes<R>(steps: seq<Step<R>>, c: nat)
    requires CalmRun(Init(), steps)
    requires ConnEnabled(Exec(Init(), steps), c, DrainErr) && Exec(Init(), steps).phase.Swapping?
    ensures var s := Exec(Init(), steps); var s' := Apply(s, OnConn(c, DrainErr));
            && c == s.conn && s'.conn == s.phase.next
            && s'.phase.Looping? && s'.loop.reading
            && s.loop.lastOp.Some? && WaitsForExactly(s'.loop.table, s.loop.lastOp.value)
            && (s.loop.lastOp.value in s'.wrote ==> s'.wrote[s.loop.lastOp.value] == s'.conn)
  {
    InitInv<R>();
    RunKeepsInv(Init(), steps);
    LiveIsCurrent(Exec(Init<R>(), steps).Net(), c);
  }

  /** How many ids have been drawn. */
  ghost function Drawn<R>(steps: seq<Step<R>>): nat {
    if steps == [] then 0
    else (if steps[0].DrawUnused? || (steps[0].ByCaller? && steps[0].act.Draw?) then 1 else 0) + Drawn(steps[1..])
  }

  lemma {:induction false} RunDraws<R>(s: Sys<R>, steps: seq<Step<R>>)
    requires Inv(s) && CalmRun(s, steps)
    ensures Exec(s, steps).counter == s.counter + Drawn(steps)
    decreases |steps|
  {
    if steps != [] {
      KeepStep(s, steps[0]);
      DrawCounts(s, steps[0]);
      RunDraws(Apply(s, steps[0]), steps[1..]);
    }
  }

  lemma DrawCounts<R>(s: Sys<R>, st: Step<R>)
    requires s.WellFormed() && Enabled(s, st)
    ensures Apply(s, st).counter == s.counter + if st.DrawUnused? || (st.ByCaller? && st.act.Draw?) then 1 else 0
  {
    match st
    case ByCaller(r, act) => CallerDraws(s, r, act);
    case OnConn(c, ev) => ReadersDraw(s, c, ev);
    case _ =>
  }

  lemma CallerDraws<R>(s: Sys<R>, r: R, act: CallerAct)
    requires s.WellFormed() && CallerEnabled(s, r, act)
    ensures CallerEffect(s, r, act).counter == s.counter + if act.Draw? then 1 else 0
  {
  }

  lemma ReadersDraw<R>(s: Sys<R>, c: nat, ev: ConnEvent)
    requires s.WellFormed() && ConnEnabled(s, c, ev)
    ensures ConnEffect(s, c, ev).counter == s.counter
  {
  }

  /** In every calm run, each draw, also that of a notification, takes the next number: the id drawn is the
      text of the number of draws so far. */
  lemma IdsAreCounted<R>(steps: seq<Step<R>>, r: R)
    requires CalmRun(Init(), steps) && CallerEnabled(Exec(Init(), steps), r, Draw)
    ensures var s := Exec(Init(), steps); var s' := Apply(s, ByCaller(r, Draw));
            && s'.HasOp(r) && s'.OpOf(r).ids == s.OpOf(r).ids + [Decimal(Drawn(steps) + 1)]
  {
    InitInv<R>();
    RunKeepsInv(Init(), steps);
    RunDraws(Init(), steps);
    SmallId(Drawn(steps));
  }

  lemma SmallId(n: nat)
    requires n + 1 < TWO_32
    ensures NextId(n) == Decimal(n + 1)
  {
  }
}
