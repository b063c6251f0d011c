/** What it means to have missed an answer: from then on nothing is sent to the caller and its channel is
    not closed, whatever happens; whereas for every other caller something still can be. */
module RequestLoss {
  import opened Basics
  import opened Channels
  import opened Ids
  import opened RequestTable
  import opened Dispatch
  import opened RequestSafety
  import opened Connections
  import opened ClientProtocol
  import opened RequestFate
  import opened Runs

  /** The caller is in `wait`, or has returned. */
  predicate AtWait(p: Pc) {
    p.Waiting? || p.TimingOut? || p.Returned?
  }

  /** The loop does not wait for anything on behalf of `r`, or has no reader that would bring it. */
  ghost predicate Lost<R>(s: Sys<R>, r: R) {
    && s.HasOp(r) && r in s.pc && AtWait(s.pc[r])
    && (!s.loop.reading || (Unawaited(s.loop.table, r) && !(s.phase.Swapping? && s.loop.lastOp == Some(r))))
  }

  /** Nothing has been sent to the caller of `r`, and the channel is as open or closed as before. */
  ghost predicate SameForCaller<R>(s: Sys<R>, s': Sys<R>, r: R) {
    && s.HasOp(r) && s'.HasOp(r)
    && s'.OpOf(r).resp.sent == s.OpOf(r).resp.sent && s'.OpOf(r).resp.closed == s.OpOf(r).resp.closed
  }

  ghost predicate StaysLost<R>(s: Sys<R>, s': Sys<R>, r: R) {
    Lost(s', r) && SameForCaller(s, s', r)
  }

  lemma WaitProgress<R>(s: Sys<R>, q: R, act: CallerAct, r: R)
    requires s.WellFormed() && CallerEnabled(s, q, act) && s.HasOp(r) && r in s.pc && AtWait(s.pc[r])
    ensures r in CallerEffect(s, q, act).pc && AtWait(CallerEffect(s, q, act).pc[r])
  {
    if q == r {
      assert act.Receive? || act.ContextDone? || act.Timeout? || act.AbandonTimeout?;
    } else {
      OthersStay(s, q, act, r);
    }
  }

  lemma LostByMove<R>(s: Sys<R>, q: R, act: CallerAct, r: R)
    requires Inv(s) && CallerEnabled(s, q, act) && Moves(act) && Lost(s, r)
    ensures StaysLost(s, CallerEffect(s, q, act), r)
  {
    WaitProgress(s, q, act, r);
    LoopUntouched(s, q, act);
    assert CallerEffect(s, q, act).phase == s.phase;
  }

  lemma LostByStep<R>(s: Sys<R>, q: R, act: CallerAct, r: R)
    requires Inv(s) && CallerEnabled(s, q, act) && (act.Create? || act.Draw? || act.Receive?) && Lost(s, r)
    ensures StaysLost(s, CallerEffect(s, q, act), r)
  {
    WaitProgress(s, q, act, r);
    SameTable(s.loop.table, CallerEffect(s, q, act).loop.table, r);
  }

  lemma LostByLoopStep<R>(s: Sys<R>, q: R, act: CallerAct, r: R)
    requires Inv(s) && CallerEnabled(s, q, act) && (act.Handover? || act.Timeout?) && Lost(s, r)
    ensures StaysLost(s, CallerEffect(s, q, act), r)
  {
    WaitProgress(s, q, act, r);
    assert FewerWaits(s.loop.table, CallerEffect(s, q, act).loop.table, r);
  }

  lemma LostByReconnect<R>(s: Sys<R>, q: R, r: R)
    requires Inv(s) && CallerEnabled(s, q, Reconnected) && Lost(s, r)
    ensures StaysLost(s, DoReconnected(s, q), r)
  {
    OffererIsLastOp(s, q);
    OthersStay(s, q, Reconnected, r);
    if s.loop.reading {
      FateCancel(s.loop.table, ErrClientReconnected, Some(q), r);
    } else {
      FreshTable(s.loop.table, q, r);
    }
  }

  lemma LostOnConn<R>(s: Sys<R>, c: nat, ev: ConnEvent, r: R)
    requires Inv(s) && ConnEnabled(s, c, ev) && Lost(s, r)
    ensures StaysLost(s, ConnEffect(s, c, ev), r)
  {
    LiveIsCurrent(s.Net(), c);
    NoCallerMoves(s, c, ev);
    match ev {
      case DispatchMsgs => NotWaitedFor(s.loop.table, s.conns[c].reader.msgs, r);
      case DispatchErr => NotCancelled(s.loop.table, s.conns[c].reader.err, s.loop.lastOp, r);
      case _ =>
    }
  }

  lemma NotCancelled<R>(t: Table<R>, e: Error, inflight: Option<R>, r: R)
    requires r in t.ops && Unawaited(t, r)
    ensures CancelAll(t, Some(e), inflight).ops[r] == t.ops[r]
  {
    if inflight != Some(r) {
      FateCancel(t, e, inflight, r);
    }
  }

  lemma LostStep<R>(s: Sys<R>, st: Step<R>, r: R)
    requires Inv(s) && Enabled(s, st) && Lost(s, r)
    ensures StaysLost(s, Apply(s, st), r)
  {
    match st
    case ByCaller(q, act) =>
      if Moves(act) {
        LostByMove(s, q, act, r);
      } else if act.Reconnected? {
        LostByReconnect(s, q, r);
      } else if act.Handover? || act.Timeout? {
        LostByLoopStep(s, q, act, r);
      } else {
        LostByStep(s, q, act, r);
      }
    case OnConn(c, ev) => LostOnConn(s, c, ev, r);
    case DrawUnused =>
    case ReqSent => assert FewerWaits(s.loop.table, Apply(s, st).loop.table, r);
    case Close => FateCancel(s.loop.table, ErrClientQuit, None, r);
  }

  /** Whatever happens afterwards, a lost caller is never sent anything and its channel is never
      closed: only its own context can end the wait. */
  lemma {:induction false} LostForever<R>(s: Sys<R>, steps: seq<Step<R>>, r: R)
    requires Inv(s) && Lost(s, r) && CalmRun(s, steps)
    ensures SameForCaller(s, Exec(s, steps), r)
    decreases |steps|
  {
    if steps != [] {
      KeepStep(s, steps[0]);
      LostStep(s, steps[0], r);
      LostForever(Apply(s, steps[0]), steps[1..], r);
    }
  }

  // A caller that has missed nothing can still be served.

  /** How many steps it takes to be done with draining. */
  ghost function Draining<R>(s: Sys<R>): nat
    requires s.WellFormed()
  {
    if !s.phase.Swapping? then 0
    else match s.conns[s.conn].reader
      case HasErr(_) => 1
      case Reading => 2
      case _ => 3
  }

  lemma Rescue<R>(s: Sys<R>, r: R) returns (more: seq<Step<R>>)
    requires Inv(s) && s.HasOp(r) && r in s.pc && Begun(s.pc[r]) && FateOf(s, false, r)
    requires !FullyAnswered(s.OpOf(r))
    ensures CalmRun(s, more) && Exec(s, more).HasOp(r) && Exec(s, more).OpOf(r).resp.closed
    decreases Draining(s)
  {
    if s.phase.Looping? {
      more := [Close];
      ClosedByQuit(s, r);
    } else {
      var st := DrainStep(s);
      KeepStep(s, st);
      FateStep(s, st, r, false);
      Drains(s, st, r);
      more := Rescue(Apply(s, st), r);
      more := [st] + more;
    }
  }

  ghost function DrainStep<R>(s: Sys<R>): Step<R>
    requires s.WellFormed()
  {
    OnConn(s.conn, match s.conns[s.conn].reader
                   case HasErr(_) => DrainErr
                   case HasMsgs(_) => DrainMsg
                   case _ => PeerFails(ErrDead))
  }

  lemma Drains<R>(s: Sys<R>, st: Step<R>, r: R)
    requires Inv(s) && s.phase.Swapping? && st == DrainStep(s) && s.HasOp(r) && r in s.pc && s.loop.lastOp == Some(r)
    ensures Enabled(s, st) && !MissesNow(s, st, r)
    ensures var s' := Apply(s, st);
            && s'.WellFormed() && Draining(s') < Draining(s)
            && s'.HasOp(r) && s'.OpOf(r) == s.OpOf(r) && s'.pc == s.pc
  {
    assert CurrentInv(s.Net()) && IncomingInv(s.Net());
  }

  lemma ClosedByQuit<R>(s: Sys<R>, r: R)
    requires Inv(s) && s.HasOp(r) && s.phase.Looping? && s.loop.reading && Covered(s.loop.table, r)
    requires !FullyAnswered(s.OpOf(r))
    ensures var s' := Exec(s, [Close]);
            s'.HasOp(r) && s'.OpOf(r).resp.closed && s'.OpOf(r).err == Some(ErrClientQuit)
  {
    var id :| id in s.OpOf(r).ids && !s.OpOf(r).Delivered(id);
    assert WaitedFor(s.loop.table, r, id);
    assert Exec(Apply(s, Close), []) == Apply(s, Close);
  }

  // ---------------------------------------------------------------------------------------------
  // The main results

  /** The caller is in `wait` after `steps`, and something that it has a right to is missing. */
  ghost predicate WaitsForMore<R>(steps: seq<Step<R>>, r: R) {
    && CalmRun(Init(), steps)
    && var s := Exec(Init(), steps);
    && s.HasOp(r) && r in s.pc && (s.pc[r].Waiting? || s.pc[r].TimingOut?) && !FullyAnswered(s.OpOf(r))
  }

  /** `more` steps can follow, after which the caller has been sent something or its channel is closed. */
  ghost predicate Serves<R>(s: Sys<R>, more: seq<Step<R>>, r: R) {
    CalmRun(s, more) && !SameForCaller(s, Exec(s, more), r)
  }

  ghost predicate Servable<R(!new)>(s: Sys<R>, r: R) {
    exists more :: Serves(s, more, r)
  }

  /** In every run, a caller in `wait` can still be sent something, or have its channel closed, if and
      only if neither of the two things has happened to it: a read error that the loop heard of while
      the request was in flight, or a write that began on a closed connection. */
  lemma CanBeServedExactlyIf<R(!new)>(steps: seq<Step<R>>, r: R)
    requires WaitsForMore(steps, r)
    ensures Servable(Exec(Init(), steps), r) <==> !EverMissed(Init(), steps, r)
  {
    var s := Exec(Init(), steps);
    if EverMissed(Init(), steps, r) {
      forall more ensures !Serves(s, more, r) {
        if CalmRun(s, more) {
          NeverServed(steps, more, r);
        }
      }
    } else {
      var more := CanBeServed(steps, r);
      assert Serves(s, more, r);
    }
  }

  lemma NeverServed<R>(steps: seq<Step<R>>, more: seq<Step<R>>, r: R)
    requires WaitsForMore(steps, r) && EverMissed(Init(), steps, r) && CalmRun(Exec(Init(), steps), more)
    ensures SameForCaller(Exec(Init(), steps), Exec(Exec(Init(), steps), more), r)
  {
    InitInv<R>();
    RunKeepsInv(Init(), steps);
    RunFate(Init(), steps, r, false);
    LostForever(Exec(Init(), steps), more, r);
  }

  lemma CanBeServed<R>(steps: seq<Step<R>>, r: R) returns (more: seq<Step<R>>)
    requires WaitsForMore(steps, r) && !EverMissed(Init(), steps, r)
    ensures Serves(Exec(Init(), steps), more, r)
  {
    InitInv<R>();
    RunKeepsInv(Init(), steps);
    RunFate(Init(), steps, r, false);
    more := Rescue(Exec(Init(), steps), r);
  }

  /** When the loop quits, the promise of `CallContext`, that the channel is then closed, is kept to a
      waiting caller if and only if neither of the two things has happened to it. */
  lemma QuitClosesExactlyIf<R>(steps: seq<Step<R>>, r: R)
    requires WaitsForMore(steps, r) && Enabled(Exec(Init(), steps), Close)
    ensures var s' := Apply(Exec(Init(), steps), Close);
            && s'.HasOp(r)
            && (s'.OpOf(r).resp.closed <==> !EverMissed(Init(), steps, r))
            && (s'.OpOf(r).resp.closed ==> s'.OpOf(r).err == Some(ErrClientQuit))
  {
    InitInv<R>();
    RunKeepsInv(Init(), steps);
    RunFate(Init(), steps, r, false);
    var s := Exec(Init(), steps);
    if EverMissed(Init(), steps, r) {
      LostStep(s, Close, r);
    } else {
      ClosedByQuit(s, r);
      assert Exec(Apply(s, Close), []) == Apply(s, Close);
    }
  }

  /** What is still in the table when the loop quits is closed exactly if a reader is live.  (That
      something can be there without one is shown by `OfflineCall`.) */
  lemma QuitClosesExactlyIfReading<R>(steps: seq<Step<R>>, r: R)
    requires CalmRun(Init(), steps) && Enabled(Exec(Init(), steps), Close)
    requires r in Exec(Init(), steps).loop.table.respWait.Values
    ensures var s := Exec(Init(), steps); var s' := Apply(s, Close);
            && s.HasOp(r) && !s.OpOf(r).resp.closed && s'.HasOp(r)
            && (s'.OpOf(r).resp.closed <==> s.loop.reading)
            && (s.loop.reading ==> s'.OpOf(r).err == Some(ErrClientQuit))
  {
    InitInv<R>();
    RunKeepsInv(Init(), steps);
    var s := Exec(Init(), steps);
    var id :| id in s.loop.table.respWait && s.loop.table.respWait[id] == r;
    assert PendingAt(s.loop.table, s.pc, id);
  }

  // Connections on which writing fails once they are closed.

  /** No write of `r` succeeds that began on a connection the loop had closed (`began`: it has). */
  ghost predicate ClosedWritesFail<R>(s: Sys<R>, steps: seq<Step<R>>, r: R, began: bool)
    requires Run(s, steps)
    decreases |steps|
  {
    steps != [] ==>
      && (steps[0] == ByCaller(r, FinishWrite(None)) ==> !began)
      && ClosedWritesFail(Apply(s, steps[0]), steps[1..], r, began || BeginsOnClosed(s, steps[0], r))
  }

  ghost predicate BeginsOnClosed<R>(s: Sys<R>, st: Step<R>, r: R) {
    st == ByCaller(r, BeginWrite) && WritesToClosed(s)
  }

  /** The caller is in a write that is going to fail, has had it fail, or has returned. */
  ghost predicate Failing<R>(s: Sys<R>, r: R) {
    r in s.pc && (s.pc[r].Writing? || (s.pc[r].Wrote? && s.pc[r].err.Some?) || s.pc[r].Returned?)
  }

  lemma FailingStep<R>(s: Sys<R>, st: Step<R>, r: R)
    requires Inv(s) && Enabled(s, st) && (Failing(s, r) || BeginsOnClosed(s, st, r))
    requires st != ByCaller(r, FinishWrite(None))
    ensures Failing(Apply(s, st), r)
  {
    match st
    case ByCaller(q, act) => if q == r { FailingAct(s, r, act); } else { OthersStay(s, q, act, r); }
    case OnConn(c, ev) => NoCallerMoves(s, c, ev);
    case _ =>
  }

  lemma FailingAct<R>(s: Sys<R>, r: R, act: CallerAct)
    requires s.WellFormed() && CallerEnabled(s, r, act) && (Failing(s, r) || act.BeginWrite?)
    requires act != FinishWrite(None)
    ensures Failing(CallerEffect(s, r, act), r)
  {
  }

  lemma {:induction false} FailingWritesDoNotWait<R>(s: Sys<R>, steps: seq<Step<R>>, r: R, began: bool)
    requires Inv(s) && CalmRun(s, steps) && ClosedWritesFail(s, steps, r, began)
    requires began ==> Failing(s, r)
    ensures began || Missed(s, steps, r, OnClosedConn) ==> Failing(Exec(s, steps), r)
    decreases |steps|
  {
    if steps != [] {
      var began' := began || BeginsOnClosed(s, steps[0], r);
      KeepStep(s, steps[0]);
      if began' {
        FailingStep(s, steps[0], r);
      }
      FailingWritesDoNotWait(Apply(s, steps[0]), steps[1..], r, began');
    }
  }

  /** On such connections there is only one way to be lost: the loop hears of a read error while the
      request is in flight and its write has begun, before everything has been answered. */
  lemma OnlyTheInterruptedAreLost<R(!new)>(steps: seq<Step<R>>, r: R)
    requires WaitsForMore(steps, r) && ClosedWritesFail(Init(), steps, r, false)
    ensures Servable(Exec(Init(), steps), r) <==> !Missed(Init(), steps, r, Interrupted)
  {
    CanBeServedExactlyIf(steps, r);
    InitInv<R>();
    FailingWritesDoNotWait(Init(), steps, r, false);
  }

  // ---------------------------------------------------------------------------------------------
  // Both ways happen

  /** Whether a write of `r` has begun on a closed connection in the course of the steps. */
  ghost predicate Began<R>(s: Sys<R>, steps: seq<Step<R>>, r: R)
    requires Run(s, steps)
    decreases |steps|
  {
    steps != [] && (BeginsOnClosed(s, steps[0], r) || Began(Apply(s, steps[0]), steps[1..], r))
  }

  lemma {:induction false} NoneBegan<R>(s: Sys<R>, steps: seq<Step<R>>, r: R)
    requires Run(s, steps) && !Began(s, steps, r)
    ensures ClosedWritesFail(s, steps, r, false)
    decreases |steps|
  {
    if steps != [] {
      NoneBegan(Apply(s, steps[0]), steps[1..], r);
    }
  }

  lemma {:induction false} HistoryExtend<R>(s: Sys<R>, steps: seq<Step<R>>, st: Step<R>, r: R, way: Way)
    requires Run(s, steps) && Enabled(Exec(s, steps), st) && Run(s, steps + [st])
    ensures Missed(s, steps + [st], r, way) <==> Missed(s, steps, r, way) || Misses(Exec(s, steps), st, r, way)
    ensures Began(s, steps + [st], r) <==> Began(s, steps, r) || BeginsOnClosed(Exec(s, steps), st, r)
    decreases |steps|
  {
    if steps == [] {
      assert ([] + [st])[1..] == [];
    } else {
      assert (steps + [st])[1..] == steps[1..] + [st];
      HistoryExtend(Apply(s, steps[0]), steps[1..], st, r, way);
    }
  }

  /** As `Reached`; `i` says whether `r` has been interrupted, `b` whether a write of it has begun on a
      closed connection. */
  ghost predicate Traced<R>(steps: seq<Step<R>>, s: Sys<R>, r: R, i: bool, b: bool) {
    Reached(steps, s) && (Missed(Init(), steps, r, Interrupted) <==> i) && (Began(Init(), steps, r) <==> b)
  }

  lemma ThenOn<R>(steps: seq<Step<R>>, s: Sys<R>, st: Step<R>, r: R, i: bool, b: bool) returns (steps': seq<Step<R>>)
    requires Traced(steps, s, r, i, b) && Enabled(s, st) && CalmStep(s, st) && s.WellFormed()
    ensures Traced(steps', Effect(s, st), r, i || Misses(s, st, r, Interrupted), b || BeginsOnClosed(s, st, r))
  {
    steps' := Then(steps, s, st);
    HistoryExtend(Init(), steps, st, r, Interrupted);
  }

  /** One caller, `r`, making a call with the first id, while the only connection is as `k` says. */
  ghost function OneCall<R>(r: R, k: Conn, ids: seq<Id>, waited: bool, p: Pc): Sys<R> {
    Sys(Loop(Table(map[r := Op(ids, None, Make(1), false)], if waited then map[NextId(0) := r] else map[]),
             if p.BeforeHandover() then None else Some(r), p.BeforeHandover(), k.reader.Live()),
        0, Looping, |ids|, if ids == [] then map[] else map[NextId(0) := Some(r)],
        map[r := p], if p.BeforeWrite() then map[] else map[r := 0], [k], Some(0),
        if p.Waiting? then Make(1).Send(None) else Make(1), false)
  }

  /** No call yet. */
  ghost function Idle<R>(k: Conn): Sys<R> {
    Init<R>().(loop := Init<R>().loop.(reading := k.reader.Live()), conns := [k])
  }

  const FIRST_ID: seq<Id> := [NextId(0)]

  lemma CallCreated<R>(r: R, k: Conn, steps: seq<Step<R>>) returns (steps': seq<Step<R>>)
    requires Traced(steps, Idle(k), r, false, false)
    ensures Traced(steps', OneCall(r, k, [], false, Building(1)), r, false, false)
  {
    steps' := ThenOn(steps, Idle(k), ByCaller(r, Create(1, false)), r, false, false);
  }

  lemma CallDrawn<R>(r: R, k: Conn, steps: seq<Step<R>>) returns (steps': seq<Step<R>>)
    requires Traced(steps, OneCall(r, k, [], false, Building(1)), r, false, false)
    ensures Traced(steps', OneCall(r, k, FIRST_ID, false, Building(0)), r, false, false)
  {
    var s := OneCall(r, k, [], false, Building(1));
    steps' := ThenOn(steps, s, ByCaller(r, Draw), r, false, false);
    assert s.OpOf(r).ids + [NextId(0)] == FIRST_ID;
  }

  lemma CallSubmitted<R>(r: R, k: Conn, steps: seq<Step<R>>) returns (steps': seq<Step<R>>)
    requires Traced(steps, OneCall(r, k, FIRST_ID, false, Building(0)), r, false, false)
    ensures Traced(steps', OneCall(r, k, FIRST_ID, false, AtReqInit), r, false, false)
  {
    steps' := ThenOn(steps, OneCall(r, k, FIRST_ID, false, Building(0)), ByCaller(r, Submit), r, false, false);
  }

  lemma CallRegistered<R>(r: R, k: Conn)
    ensures DoHandover(OneCall(r, k, FIRST_ID, false, AtReqInit), r) == OneCall(r, k, FIRST_ID, true, Holding)
  {
    assert Add(OneCall(r, k, FIRST_ID, false, AtReqInit).loop.table, r).respWait == map[NextId(0) := r];
  }

  lemma CallHandedOver<R>(r: R, k: Conn, steps: seq<Step<R>>) returns (steps': seq<Step<R>>)
    requires Traced(steps, OneCall(r, k, FIRST_ID, false, AtReqInit), r, false, false)
    ensures Traced(steps', OneCall(r, k, FIRST_ID, true, Holding), r, false, false)
  {
    steps' := ThenOn(steps, OneCall(r, k, FIRST_ID, false, AtReqInit), ByCaller(r, Handover), r, false, false);
    CallRegistered(r, k);
  }

  lemma CallWriting<R>(r: R, k: Conn, steps: seq<Step<R>>) returns (steps': seq<Step<R>>)
    requires Traced(steps, OneCall(r, k, FIRST_ID, true, Holding), r, false, false)
    ensures Traced(steps', OneCall(r, k, FIRST_ID, true, Writing), r, false, k.closes > 0)
  {
    steps' := ThenOn(steps, OneCall(r, k, FIRST_ID, true, Holding), ByCaller(r, BeginWrite), r, false, false);
  }

  lemma WritingCall<R>(r: R, k: Conn, steps: seq<Step<R>>) returns (steps': seq<Step<R>>)
    requires Traced(steps, Idle(k), r, false, false)
    ensures Traced(steps', OneCall(r, k, FIRST_ID, true, Writing), r, false, k.closes > 0)
  {
    steps' := CallCreated(r, k, steps);
    steps' := CallDrawn(r, k, steps');
    steps' := CallSubmitted(r, k, steps');
    steps' := CallHandedOver(r, k, steps');
    steps' := CallWriting(r, k, steps');
  }

  lemma CallWritten<R>(r: R, k: Conn, waited: bool, i: bool, b: bool, steps: seq<Step<R>>)
    returns (steps': seq<Step<R>>)
    requires Traced(steps, OneCall(r, k, FIRST_ID, waited, Writing), r, i, b)
    ensures Traced(steps', OneCall(r, k, FIRST_ID, waited, Wrote(None)), r, i, b)
  {
    steps' := ThenOn(steps, OneCall(r, k, FIRST_ID, waited, Writing), ByCaller(r, FinishWrite(None)), r, i, b);
  }

  lemma WaitingCall<R>(r: R, k: Conn, waited: bool, i: bool, b: bool, steps: seq<Step<R>>)
    returns (steps': seq<Step<R>>)
    requires Traced(steps, OneCall(r, k, FIRST_ID, waited, Writing), r, i, b)
    ensures Traced(steps', OneCall(r, k, FIRST_ID, waited, Waiting(1)), r, i, b)
  {
    steps' := CallWritten(r, k, waited, i, b, steps);
    steps' := ThenOn(steps', OneCall(r, k, FIRST_ID, waited, Wrote(None)), ByCaller(r, SignalSent), r, i, b);
  }

  const UP := Conn(Reading, 0)
  const DOWN := Conn(Exited, 1)

  lemma ConnectionLost<R>(r: R, steps: seq<Step<R>>, e: Error) returns (steps': seq<Step<R>>)
    requires Traced(steps, Idle<R>(UP), r, false, false)
    ensures Traced(steps', Idle<R>(DOWN), r, false, false)
  {
    steps' := ThenOn(steps, Idle(UP), OnConn(0, PeerFails(e)), r, false, false);
    var s := Idle<R>(Conn(HasErr(e), 0));
    steps' := ThenOn(steps', s, OnConn(0, DispatchErr), r, false, false);
    assert CancelAll(s.loop.table, Some(e), None) == s.loop.table;
  }

  lemma PeerFailsInWrite<R>(r: R, steps: seq<Step<R>>, e: Error) returns (steps': seq<Step<R>>)
    requires Traced(steps, OneCall(r, UP, FIRST_ID, true, Writing), r, false, false)
    ensures Traced(steps', OneCall(r, Conn(HasErr(e), 0), FIRST_ID, true, Writing), r, false, false)
  {
    steps' := ThenOn(steps, OneCall(r, UP, FIRST_ID, true, Writing), OnConn(0, PeerFails(e)), r, false, false);
  }

  lemma ConnectionLostInWrite<R>(r: R, steps: seq<Step<R>>, e: Error) returns (steps': seq<Step<R>>)
    requires Traced(steps, OneCall(r, UP, FIRST_ID, true, Writing), r, false, false)
    ensures Traced(steps', OneCall(r, DOWN, FIRST_ID, false, Writing), r, true, false)
  {
    steps' := PeerFailsInWrite(r, steps, e);
    var s := OneCall(r, Conn(HasErr(e), 0), FIRST_ID, true, Writing);
    StillMissing(r, Conn(HasErr(e), 0), true, Writing);
    steps' := ThenOn(steps', s, OnConn(0, DispatchErr), r, false, false);
    var t := CancelAll(s.loop.table, Some(e), Some(r));
    assert t.ops == s.loop.table.ops && t.respWait == map[];
  }

  /** The connection fails while the call is in flight, the write succeeds nevertheless, and the
      caller goes on to wait for an answer that cannot come.  No write begins on a closed connection. */
  lemma LostCall<R>(r: R, e: Error) returns (steps: seq<Step<R>>)
    ensures WaitsForMore(steps, r) && Lost(Exec(Init(), steps), r)
    ensures Missed(Init(), steps, r, Interrupted) && ClosedWritesFail(Init(), steps, r, false)
  {
    assert Traced([], Idle<R>(UP), r, false, false);
    steps := WritingCall(r, UP, []);
    steps := ConnectionLostInWrite(r, steps, e);
    steps := WaitingCall(r, DOWN, false, true, false, steps);
    StillMissing(r, DOWN, false, Waiting(1));
    NoneBegan(Init(), steps, r);
  }

  /** The connection has failed before the call, which is handed over to the handler that is left, and
      its write on the closed connection goes through: the call waits where no reader is live. */
  lemma OfflineCall<R>(r: R, e: Error) returns (steps: seq<Step<R>>)
    ensures WaitsForMore(steps, r) && Lost(Exec(Init(), steps), r)
    ensures Missed(Init(), steps, r, OnClosedConn) && !Missed(Init(), steps, r, Interrupted)
    ensures r in Exec(Init(), steps).loop.table.respWait.Values
  {
    assert Traced([], Idle<R>(UP), r, false, false);
    steps := ConnectionLost(r, [], e);
    steps := WritingCall(r, DOWN, steps);
    steps := WaitingCall(r, DOWN, true, false, true, steps);
    StillMissing(r, DOWN, true, Waiting(1));
    assert Exec(Init(), steps).loop.table.respWait[NextId(0)] == r;
    InitInv<R>();
    ForgottenExactlyWhen(steps, r);
  }

  lemma StillMissing<R>(r: R, k: Conn, waited: bool, p: Pc)
    ensures !FullyAnswered(OneCall(r, k, FIRST_ID, waited, p).OpOf(r))
  {
    var op := OneCall(r, k, FIRST_ID, waited, p).OpOf(r);
    assert NextId(0) in op.ids && !op.Delivered(NextId(0));
  }
}
