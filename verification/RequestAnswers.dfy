/** When a waiting call can still be answered, and when a subscription request returns a subscription. */
module RequestAnswers {
  import opened Basics
  import opened Ids
  import opened RequestTable
  import opened RequestSafety
  import opened Connections
  import opened ClientProtocol
  import opened RequestFate
  import opened RequestLoss

  // Calls and batches that cannot be answered any more.

  /** The reader of the current connection has failed, and the loop is about to hear of it. */
  ghost predicate ReaderFailed<R>(s: Sys<R>) {
    s.phase.Looping? && s.loop.reading && s.conn < |s.conns| && s.conns[s.conn].reader.HasErr?
  }

  ghost predicate Deaf<R>(s: Sys<R>, r: R, id: Id) {
    && s.HasOp(r) && r in s.pc && AtWait(s.pc[r]) && !s.OpOf(r).Delivered(id)
    && (Lost(s, r) || ReaderFailed(s))
  }

  lemma SameSent<R>(s: Sys<R>, s': Sys<R>, r: R, id: Id)
    requires s.HasOp(r) && s'.HasOp(r) && s'.OpOf(r).resp.sent == s.OpOf(r).resp.sent
    ensures s'.OpOf(r).Delivered(id) <==> s.OpOf(r).Delivered(id)
  {
  }

  lemma FailedByCaller<R>(s: Sys<R>, q: R, act: CallerAct, r: R)
    requires Inv(s) && CallerEnabled(s, q, act) && !act.Reconnected? && ReaderFailed(s)
    requires s.HasOp(r) && r in s.pc && AtWait(s.pc[r])
    ensures var s' := CallerEffect(s, q, act);
            ReaderFailed(s') && s'.HasOp(r) && s'.OpOf(r).resp.sent == s.OpOf(r).resp.sent
  {
    if Moves(act) {
      LoopUntouched(s, q, act);
    }
  }

  lemma FailedReconnected<R>(s: Sys<R>, q: R, r: R)
    requires Inv(s) && CallerEnabled(s, q, Reconnected) && ReaderFailed(s)
    requires s.HasOp(r) && r in s.pc && AtWait(s.pc[r])
    ensures var s' := DoReconnected(s, q);
            Lost(s', r) && s'.OpOf(r).resp.sent == s.OpOf(r).resp.sent
  {
    OffererIsLastOp(s, q);
    OthersStay(s, q, Reconnected, r);
  }

  lemma FailedOnConn<R>(s: Sys<R>, c: nat, ev: ConnEvent, r: R)
    requires Inv(s) && ConnEnabled(s, c, ev) && ReaderFailed(s)
    requires s.HasOp(r) && r in s.pc && AtWait(s.pc[r])
    ensures var s' := ConnEffect(s, c, ev);
            Lost(s', r) && s'.OpOf(r).resp.sent == s.OpOf(r).resp.sent
  {
    LiveIsCurrent(s.Net(), c);
  }

  lemma DeafStep<R>(s: Sys<R>, st: Step<R>, r: R, id: Id)
    requires Inv(s) && Enabled(s, st) && Deaf(s, r, id)
    ensures Deaf(Apply(s, st), r, id)
  {
    if Lost(s, r) {
      LostStep(s, st, r);
    } else {
      match st
      case ByCaller(q, act) =>
        WaitProgress(s, q, act, r);
        if act.Reconnected? { FailedReconnected(s, q, r); } else { FailedByCaller(s, q, act, r); }
      case OnConn(c, ev) => FailedOnConn(s, c, ev, r);
      case _ =>
    }
    SameSent(s, Apply(s, st), r, id);
  }

  lemma {:induction false} DeafForever<R>(s: Sys<R>, steps: seq<Step<R>>, r: R, id: Id)
    requires Inv(s) && Deaf(s, r, id) && CalmRun(s, steps)
    ensures Deaf(Exec(s, steps), r, id)
    decreases |steps|
  {
    if steps != [] {
      KeepStep(s, steps[0]);
      DeafStep(s, steps[0], r, id);
      DeafForever(Apply(s, steps[0]), steps[1..], r, id);
    }
  }

  // And those that can.

  /** The caller of a call or batch waits, safely, for the answer to `id`. */
  ghost predicate Hopes<R>(s: Sys<R>, r: R, id: Id) {
    && Inv(s) && s.HasOp(r) && r in s.pc && Begun(s.pc[r]) && FateOf(s, false, r)
    && !s.OpOf(r).isSub && !s.OpOf(r).resp.closed && id in s.OpOf(r).ids && !s.OpOf(r).Delivered(id)
    && !ReaderFailed(s)
  }

  /** After these steps the answer has been sent to the caller. */
  ghost predicate Answers<R>(s: Sys<R>, more: seq<Step<R>>, r: R, id: Id) {
    CalmRun(s, more) && Exec(s, more).HasOp(r) && Exec(s, more).OpOf(r).Delivered(id)
  }

  lemma AnswersPrepend<R>(s: Sys<R>, st: Step<R>, more: seq<Step<R>>, r: R, id: Id)
    requires Enabled(s, st) && CalmStep(s, st) && Answers(Apply(s, st), more, r, id)
    ensures Answers(s, [st] + more, r, id)
  {
    assert ([st] + more)[1..] == more;
  }

  /** The response to `id` arrives at the table. */
  lemma ResponseDelivers<R>(s: Sys<R>, r: R, m: Response)
    requires Hopes(s, r, m.id) && s.phase.Looping?
    ensures var t := RespondAll(s.loop.table, [m]); r in t.ops && t.ops[r].Delivered(m.id)
  {
    assert WaitedFor(s.loop.table, r, m.id);
    KeepRespond(s.loop.table, s.pc, s.wrote, s.drawn, m);
    assert OpAt(Respond(s.loop.table, m).ops, s.pc, s.wrote, s.drawn, r);
    AnsweredDelivers(s.OpOf(r), m);
    assert [m][1..] == [];
    assert RespondAll(s.loop.table, [m]) == Respond(s.loop.table, m);
  }

  /** The reader is free: the peer answers. */
  lemma AnsweredNow<R>(s: Sys<R>, r: R, id: Id) returns (more: seq<Step<R>>)
    requires Hopes(s, r, id) && s.phase.Looping? && s.conns[s.conn].reader.Reading?
    ensures Answers(s, more, r, id)
  {
    var m := Response(id, None, "", None);
    var st1: Step<R> := OnConn(s.conn, PeerSends([m]));
    var s1 := Apply(s, st1);
    var st2: Step<R> := OnConn(s.conn, DispatchMsgs);
    ResponseDelivers(s, r, m);
    assert Answers(Apply(s1, st2), [], r, id);
    AnswersPrepend(s1, st2, [], r, id);
    AnswersPrepend(s, st1, [st2] + [], r, id);
    more := [st1] + ([st2] + []);
  }

  ghost function Delay<R>(s: Sys<R>): nat
    requires s.WellFormed()
  {
    if s.phase.Swapping? then Draining(s) else if s.conns[s.conn].reader.HasMsgs? then 1 else 0
  }

  lemma {:induction false} CallStaysOpen<R>(t: Table<R>, ms: seq<Response>, r: R)
    requires t.Closed() && r in t.ops && !t.ops[r].isSub
    ensures var t' := RespondAll(t, ms);
            r in t'.ops && t'.ops[r].ids == t.ops[r].ids && !t'.ops[r].isSub
            && t'.ops[r].resp.closed == t.ops[r].resp.closed
    decreases |ms|
  {
    if ms != [] {
      CallStaysOpen(Respond(t, ms[0]), ms[1..], r);
    }
  }

  /** The loop handles what the reader holds. */
  lemma HopesOn<R>(s: Sys<R>, r: R, id: Id)
    requires Hopes(s, r, id) && s.phase.Looping? && s.conns[s.conn].reader.HasMsgs?
    ensures var s' := Apply(s, OnConn(s.conn, DispatchMsgs));
            && s'.WellFormed() && s'.HasOp(r) && Delay(s') == 0
            && (s'.OpOf(r).Delivered(id) || Hopes(s', r, id))
  {
    var st: Step<R> := OnConn(s.conn, DispatchMsgs);
    KeepStep(s, st);
    FateStep(s, st, r, false);
    CallStaysOpen(s.loop.table, s.conns[s.conn].reader.msgs, r);
  }

  lemma HopesDraining<R>(s: Sys<R>, r: R, id: Id)
    requires Hopes(s, r, id) && s.phase.Swapping?
    ensures Enabled(s, DrainStep(s)) && CalmStep(s, DrainStep(s))
    ensures var s' := Apply(s, DrainStep(s)); Hopes(s', r, id) && Delay(s') < Delay(s)
  {
    Drains(s, DrainStep(s), r);
    KeepStep(s, DrainStep(s));
    FateStep(s, DrainStep(s), r, false);
    assert IncomingInv(s.Net());
  }

  lemma AnsweredLater<R>(s: Sys<R>, r: R, id: Id) returns (more: seq<Step<R>>)
    requires Hopes(s, r, id)
    ensures Answers(s, more, r, id)
    decreases Delay(s)
  {
    assert CurrentInv(s.Net());
    if s.phase.Looping? && s.conns[s.conn].reader.Reading? {
      more := AnsweredNow(s, r, id);
      return;
    }
    var st: Step<R> := if s.phase.Swapping? then DrainStep(s) else OnConn(s.conn, DispatchMsgs);
    more := [];
    if s.phase.Swapping? {
      HopesDraining(s, r, id);
    } else {
      HopesOn(s, r, id);
    }
    if !Apply(s, st).OpOf(r).Delivered(id) {
      more := AnsweredLater(Apply(s, st), r, id);
    }
    AnswersPrepend(s, st, more, r, id);
    more := [st] + more;
  }

  ghost predicate Answerable<R(!new)>(s: Sys<R>, r: R, id: Id) {
    exists more :: Answers(s, more, r, id)
  }

  /** In every calm run, an answer that a call or batch in `wait` is missing, on a channel that is open,
      can still reach it if and only if the caller has not missed it and the current reader has not
      failed. */
  lemma CanBeAnsweredExactlyIf<R(!new)>(steps: seq<Step<R>>, r: R, id: Id)
    requires WaitsForMore(steps, r)
    requires var op := Exec(Init(), steps).OpOf(r);
             !op.isSub && !op.resp.closed && id in op.ids && !op.Delivered(id)
    ensures Answerable(Exec(Init(), steps), r, id) <==>
            !EverMissed(Init(), steps, r) && !ReaderFailed(Exec(Init(), steps))
  {
    var s := Exec(Init(), steps);
    InitInv<R>();
    RunKeepsInv(Init(), steps);
    RunFate(Init(), steps, r, false);
    if EverMissed(Init(), steps, r) || ReaderFailed(s) {
      forall more | CalmRun(s, more) ensures !Answers(s, more, r, id) {
        DeafForever(s, more, r, id);
      }
    } else {
      var more := AnsweredLater(s, r, id);
      assert Answers(s, more, r, id);
    }
  }
}
