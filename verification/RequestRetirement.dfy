/** The other side of `RequestFate`: while the loop serves, it waits for nobody who has left.  The one
    exception lasts until the loop has seen that a write has failed. */
module RequestRetirement {
  import opened Basics
  import opened Ids
  import opened RequestTable
  import opened RequestSafety
  import opened Connections
  import opened ClientProtocol
  import opened RequestFate
  import opened BatchCalls

  /** The write of `r` has failed, and the signal that says so lies in the slot of `reqSent`. */
  ghost predicate FailureSignalled<R>(s: Sys<R>, r: R) {
    && s.loop.lastOp == Some(r)
    && s.reqSent.taken < |s.reqSent.sent| && s.reqSent.sent[s.reqSent.taken].Some?
  }

  /** What the caller of a call or batch has received, and what it still expects, make up its ids. */
  ghost predicate Tally(op: Op, p: Pc) {
    && (op.err.Some? ==> op.resp.closed)
    && (!op.isSub ==>
          && (p.BeforeHandover() || p.InWrite() ==> op.resp.taken == 0)
          && (p.Waiting? ==> p.left + op.resp.taken == |op.ids|))
  }

  ghost predicate Settled<R>(s: Sys<R>, r: R) {
    s.HasOp(r) && r in s.pc ==>
      && Tally(s.OpOf(r), s.pc[r])
      && (s.pc[r].Returned? && s.phase.Serving() && !FailureSignalled(s, r) ==>
            && Unawaited(s.loop.table, r)
            && (s.phase.Swapping? && s.loop.lastOp == Some(r) ==> s.OpOf(r).ids == []))
  }

  /** With as many responses as ids, every id has had one. */
  lemma AllDelivered(op: Op)
    requires AnswersTo(op.ids, op.resp.sent) && Distinct(op.ids) && |op.resp.sent| >= |op.ids|
    ensures FullyAnswered(op)
  {
    EveryIdAnswered(op.ids, op.resp.sent);
    forall id | id in op.ids ensures op.Delivered(id) {
      assert AnsweredBy(op.resp.sent, id);
    }
  }

  // One step: the caller itself.

  /** A caller that returns from `wait` has had everything, or finds its channel closed. */
  lemma OwnLastReceive<R>(s: Sys<R>, r: R)
    requires Inv(s) && CallerEnabled(s, r, Receive) && Settled(s, r)
    requires s.OpOf(r).resp.closed || s.pc[r].left == 1
    ensures Settled(DoReceive(s, r), r)
  {
    assert OpAt(s.loop.table.ops, s.pc, s.wrote, s.drawn, r);
    if !s.OpOf(r).resp.closed {
      AllDelivered(s.OpOf(r));
    }
    Awaited(s.loop.table, s.pc, r);
    SameTable(s.loop.table, DoReceive(s, r).loop.table, r);
  }

  lemma OwnReceive<R>(s: Sys<R>, r: R)
    requires Inv(s) && CallerEnabled(s, r, Receive) && Settled(s, r)
    ensures Settled(DoReceive(s, r), r)
  {
    if s.OpOf(r).resp.closed || s.pc[r].left == 1 {
      OwnLastReceive(s, r);
    } else {
      assert OpAt(s.loop.table.ops, s.pc, s.wrote, s.drawn, r);
    }
  }

  /** Most of a caller's steps leave the loop's variables alone. */
  lemma OwnMove<R>(s: Sys<R>, r: R, act: CallerAct)
    requires Inv(s) && CallerEnabled(s, r, act) && Settled(s, r) && Moves(act)
    ensures Settled(CallerEffect(s, r, act), r)
  {
    LoopUntouched(s, r, act);
    assert CallerEffect(s, r, act).phase == s.phase;
    match act
    case GiveUp => Awaited(s.loop.table, s.pc, r);
    case SignalSent => if s.OpOf(r).ids == [] { Awaited(s.loop.table, s.pc, r); }
    case _ =>
  }

  lemma OwnStep<R>(s: Sys<R>, r: R, act: CallerAct)
    requires Inv(s) && CallerEnabled(s, r, act) && Settled(s, r)
    requires !Moves(act) && !act.Receive? && !act.Reconnected?
    ensures Settled(CallerEffect(s, r, act), r)
  {
    if act.Timeout? {
      Removed(s.loop.table, s.pc, r);
    }
  }

  lemma OwnReconnected<R>(s: Sys<R>, r: R)
    requires Inv(s) && CallerEnabled(s, r, Reconnected) && Settled(s, r)
    ensures Settled(DoReconnected(s, r), r)
  {
  }

  // One step: somebody else.

  /** The request itself is as before, or has been answered or cancelled. */
  ghost predicate Progressed(op: Op, op': Op) {
    && op'.ids == op.ids && op'.isSub == op.isSub && op'.resp.taken == op.resp.taken
    && ((op.err.Some? ==> op.resp.closed) ==> op'.err.Some? ==> op'.resp.closed)
  }

  lemma {:induction false} RespondedTo<R>(t: Table<R>, ms: seq<Response>, r: R)
    requires t.Closed() && r in t.ops
    ensures var t' := RespondAll(t, ms); r in t'.ops && Progressed(t.ops[r], t'.ops[r]) && FewerWaits(t, t', r)
    decreases |ms|
  {
    if ms != [] {
      RespondedTo(Respond(t, ms[0]), ms[1..], r);
    }
  }

  lemma SettledOn<R>(s: Sys<R>, s': Sys<R>, r: R)
    requires Settled(s, r) && s.HasOp(r) && s'.HasOp(r) && r in s.pc && r in s'.pc && s'.pc[r] == s.pc[r]
    requires Progressed(s.OpOf(r), s'.OpOf(r))
    requires s.pc[r].Returned? && s'.phase.Serving() && !FailureSignalled(s', r) ==>
               && s.phase.Serving() && !FailureSignalled(s, r)
               && FewerWaits(s.loop.table, s'.loop.table, r)
               && !(s'.phase.Swapping? && s'.loop.lastOp == Some(r) && !s.phase.Swapping?)
               && (s'.phase.Swapping? ==> s'.loop.lastOp == s.loop.lastOp)
    ensures Settled(s', r)
  {
  }

  lemma OtherMove<R>(s: Sys<R>, q: R, act: CallerAct, r: R)
    requires Inv(s) && CallerEnabled(s, q, act) && q != r && Settled(s, r) && s.HasOp(r) && Moves(act)
    ensures Settled(CallerEffect(s, q, act), r)
  {
    LoopUntouched(s, q, act);
    assert CallerEffect(s, q, act).phase == s.phase;
  }

  lemma OtherStep<R>(s: Sys<R>, q: R, act: CallerAct, r: R)
    requires Inv(s) && CallerEnabled(s, q, act) && q != r && Settled(s, r) && s.HasOp(r)
    requires !Moves(act) && !act.Reconnected?
    ensures Settled(CallerEffect(s, q, act), r)
  {
    assert FewerWaits(s.loop.table, CallerEffect(s, q, act).loop.table, r);
  }

  lemma OtherReconnected<R>(s: Sys<R>, q: R, r: R)
    requires Inv(s) && CallerEnabled(s, q, Reconnected) && q != r && Settled(s, r) && s.HasOp(r)
    ensures Settled(DoReconnected(s, q), r)
  {
    OffererIsLastOp(s, q);
    OthersStay(s, q, Reconnected, r);
    if !s.loop.reading {
      FreshTable(s.loop.table, q, r);
    }
  }

  lemma OnDispatchMsgs<R>(s: Sys<R>, c: nat, r: R)
    requires Inv(s) && ConnEnabled(s, c, DispatchMsgs) && Settled(s, r) && s.HasOp(r)
    ensures Settled(DoDispatchMsgs(s, c), r)
  {
    RespondedTo(s.loop.table, s.conns[c].reader.msgs, r);
    SettledOn(s, DoDispatchMsgs(s, c), r);
  }

  lemma OnConnStep<R>(s: Sys<R>, c: nat, ev: ConnEvent, r: R)
    requires Inv(s) && ConnEnabled(s, c, ev) && Settled(s, r) && s.HasOp(r)
    ensures Settled(ConnEffect(s, c, ev), r)
  {
    match ev {
      case DispatchMsgs => OnDispatchMsgs(s, c, r);
      case DrainErr => LiveIsCurrent(s.Net(), c);
      case _ =>
    }
  }

  lemma OnLoopStep<R>(s: Sys<R>, st: Step<R>, r: R)
    requires Inv(s) && Enabled(s, st) && (st.DrawUnused? || st.ReqSent? || st.Close?)
    requires Settled(s, r) && s.HasOp(r)
    ensures Settled(Apply(s, st), r)
  {
    if st.ReqSent? {
      LockReleased(s.loop.lockFree, s.loop.lastOp, s.reqSent, s.pc);
      assert FewerWaits(s.loop.table, Apply(s, st).loop.table, r);
      if s.loop.lastOp == Some(r) {
        Removed(s.loop.table, s.pc, r);
      }
    }
  }

  lemma SettledByItself<R>(s: Sys<R>, r: R, act: CallerAct)
    requires Inv(s) && CallerEnabled(s, r, act) && Settled(s, r)
    ensures Settled(CallerEffect(s, r, act), r)
  {
    if Moves(act) {
      OwnMove(s, r, act);
    } else if act.Receive? {
      OwnReceive(s, r);
    } else if act.Reconnected? {
      OwnReconnected(s, r);
    } else {
      OwnStep(s, r, act);
    }
  }

  lemma SettledByOther<R>(s: Sys<R>, q: R, act: CallerAct, r: R)
    requires Inv(s) && CallerEnabled(s, q, act) && Settled(s, r) && q != r
    ensures Settled(CallerEffect(s, q, act), r)
  {
    if !s.HasOp(r) {
      OthersStay(s, q, act, r);
    } else if Moves(act) {
      OtherMove(s, q, act, r);
    } else if act.Reconnected? {
      OtherReconnected(s, q, r);
    } else {
      OtherStep(s, q, act, r);
    }
  }

  lemma SettledStep<R>(s: Sys<R>, st: Step<R>, r: R)
    requires Inv(s) && Enabled(s, st) && Settled(s, r)
    ensures Settled(Apply(s, st), r)
  {
    match st
    case ByCaller(q, act) => if q == r { SettledByItself(s, r, act); } else { SettledByOther(s, q, act, r); }
    case OnConn(c, ev) => if s.HasOp(r) { OnConnStep(s, c, ev, r); } else { NoCallerMoves(s, c, ev); }
    case _ => if s.HasOp(r) { OnLoopStep(s, st, r); }
  }

  lemma {:induction false} RunSettled<R>(s: Sys<R>, steps: seq<Step<R>>, r: R)
    requires Inv(s) && CalmRun(s, steps) && Settled(s, r)
    ensures Settled(Exec(s, steps), r)
    decreases |steps|
  {
    if steps != [] {
      KeepStep(s, steps[0]);
      SettledStep(s, steps[0], r);
      RunSettled(Apply(s, steps[0]), steps[1..], r);
    }
  }

  /** In every run, while the loop serves: if an id is waited for, the caller it was drawn for is still
      in its call, unless its write has failed and the loop is just about to hear of it. */
  lemma WaitsForNobodyWhoLeft<R>(steps: seq<Step<R>>, id: Id)
    requires CalmRun(Init(), steps)
    requires id in Exec(Init(), steps).loop.table.respWait && Exec(Init(), steps).phase.Serving()
    ensures var s := Exec(Init(), steps); var r := s.loop.table.respWait[id];
            && id in s.drawn && s.drawn[id] == Some(r) && r in s.pc
            && (s.pc[r].Returned? ==> FailureSignalled(s, r))
  {
    InitInv<R>();
    RunKeepsInv(Init(), steps);
    var s := Exec(Init(), steps);
    var r := s.loop.table.respWait[id];
    RunSettled(Init(), steps, r);
    assert PendingAt(s.loop.table, s.pc, id) && WaitedFor(s.loop.table, r, id);
    assert OpAt(s.loop.table.ops, s.pc, s.wrote, s.drawn, r);
  }

  /** In every run, what the caller of a call or batch has received and what it still expects make up
      its ids.  So when its last `wait` returns without an error, it has been sent one response for
      each id and no other: what `BatchCalls.BatchCallContext` starts from. */
  lemma LastResponseCompletes<R>(steps: seq<Step<R>>, r: R)
    requires CalmRun(Init(), steps) && Exec(Init(), steps).HasOp(r) && !Exec(Init(), steps).OpOf(r).isSub
    requires r in Exec(Init(), steps).pc && Exec(Init(), steps).pc[r].Waiting?
    ensures var s := Exec(Init(), steps); var op := s.OpOf(r);
            && s.pc[r].left + op.resp.taken == |op.ids|
            && (s.pc[r].left == 1 && op.resp.CanReceive() && WaitResult(op).1.None? ==>
                  Distinct(op.ids) && AnswersTo(op.ids, op.resp.sent)
                  && |op.resp.sent| == |op.ids| && EachAnswered(op.ids, op.resp.sent))
  {
    InitInv<R>();
    RunKeepsInv(Init(), steps);
    RunSettled(Init(), steps, r);
    var s := Exec(Init(), steps);
    assert OpAt(s.loop.table.ops, s.pc, s.wrote, s.drawn, r);
    if s.pc[r].left == 1 && s.OpOf(r).resp.CanReceive() && WaitResult(s.OpOf(r)).1.None? {
      EveryIdAnswered(s.OpOf(r).ids, s.OpOf(r).resp.sent);
    }
  }
}
