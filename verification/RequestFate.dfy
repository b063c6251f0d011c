/** What becomes of a request that the loop has accepted.  A caller whose write has begun is answered, or
    still waited for where a reader is live, or has had its channel closed: unless one of exactly two
    things has happened to it, which `Misses` names. */
module RequestFate {
  import opened Basics
  import opened Ids
  import opened RequestTable
  import opened Dispatch
  import opened RequestSafety
  import opened Connections
  import opened ClientProtocol

  ghost predicate WaitedFor<R>(t: Table<R>, r: R, id: Id) {
    id in t.respWait && t.respWait[id] == r
  }

  ghost predicate Unawaited<R>(t: Table<R>, r: R) {
    forall id :: !WaitedFor(t, r, id)
  }

  ghost predicate FewerWaits<R>(t: Table<R>, t': Table<R>, r: R) {
    forall id :: WaitedFor(t', r, id) ==> WaitedFor(t, r, id)
  }

  /** There is nothing that the caller has a right to and has not been sent. */
  ghost predicate FullyAnswered(op: Op) {
    op.resp.closed || forall id :: id in op.ids ==> op.Delivered(id)
  }

  /** The channel is closed, or each id has been answered or is waited for. */
  ghost predicate Covered<R>(t: Table<R>, r: R) {
    && r in t.ops
    && (t.ops[r].resp.closed || forall id :: id in t.ops[r].ids ==> t.ops[r].Delivered(id) || WaitedFor(t, r, id))
  }

  /** The write of this caller's request has begun, and has not failed. */
  predicate Begun(p: Pc) {
    p.Writing? || p == Wrote(None) || p.Waiting? || p.TimingOut?
  }

  /** Nothing is missing: all has been sent, or what has not is waited for where a reader is live, or
      the request is carried over from a reader that is being drained to the next. */
  ghost predicate Safe<R>(loop: Loop<R>, phase: Phase, r: R)
    requires r in loop.table.ops
  {
    || FullyAnswered(loop.table.ops[r])
    || (phase.Looping? && loop.reading && Covered(loop.table, r))
    || (phase.Swapping? && loop.lastOp == Some(r))
  }

  /** Something is missing, and the loop does not wait for it, or no reader would bring it. */
  ghost predicate Stray<R>(loop: Loop<R>, phase: Phase, r: R)
    requires r in loop.table.ops
  {
    && !FullyAnswered(loop.table.ops[r])
    && (!loop.reading || (Unawaited(loop.table, r) && !(phase.Swapping? && loop.lastOp == Some(r))))
  }

  /** The two ways to miss an answer: the loop hears of a read error while the request is in flight
      and its write has begun; or the write begins on a connection that the loop has already closed. */
  datatype Way = Interrupted | OnClosedConn

  ghost predicate Misses<R>(s: Sys<R>, st: Step<R>, r: R, way: Way) {
    && s.HasOp(r) && r in s.pc && !FullyAnswered(s.OpOf(r))
    && match way
       case Interrupted => st.OnConn? && st.ev.DispatchErr? && s.loop.lastOp == Some(r) && Begun(s.pc[r])
       case OnClosedConn => st == ByCaller(r, BeginWrite) && WritesToClosed(s)
  }

  ghost predicate WritesToClosed<R>(s: Sys<R>) {
    s.writeConn.Some? && s.writeConn.value < |s.conns| && s.conns[s.writeConn.value].closes > 0
  }

  ghost predicate MissesNow<R>(s: Sys<R>, st: Step<R>, r: R) {
    Misses(s, st, r, Interrupted) || Misses(s, st, r, OnClosedConn)
  }

  /** It has happened in the course of some steps. */
  ghost predicate Missed<R>(s: Sys<R>, steps: seq<Step<R>>, r: R, way: Way)
    requires Run(s, steps)
    decreases |steps|
  {
    steps != [] && (Misses(s, steps[0], r, way) || Missed(Apply(s, steps[0]), steps[1..], r, way))
  }

  /** Nothing is waited for on behalf of a request without ids, closed, not handed over, or answered. */
  lemma Awaited<R>(t: Table<R>, pc: map<R, Pc>, r: R)
    requires PendingsInv(t, pc) && r in t.ops && r in pc
    requires t.ops[r].ids == [] || t.ops[r].resp.closed || pc[r].BeforeHandover() || FullyAnswered(t.ops[r])
    ensures Unawaited(t, r)
  {
    forall id | id in t.respWait ensures t.respWait[id] != r {
      assert PendingAt(t, pc, id);
    }
  }

  lemma Removed<R>(t: Table<R>, pc: map<R, Pc>, r: R)
    requires PendingsInv(t, pc) && r in t.ops
    ensures Unawaited(Remove(t, r), r)
  {
    forall id | id in t.respWait && t.respWait[id] == r ensures id !in Remove(t, r).respWait {
      assert PendingAt(t, pc, id);
    }
  }

  // The table operations.

  ghost predicate Disjoint<R>(t: Table<R>, q: R, r: R)
    requires q in t.ops && r in t.ops
  {
    forall id :: id in t.ops[q].ids ==> id !in t.ops[r].ids
  }

  lemma IdsDisjoint<R>(t: Table<R>, pc: map<R, Pc>, wrote: map<R, nat>, drawn: Draws<R>, q: R, r: R)
    requires RequestsInv(t, pc, wrote, drawn) && q in t.ops && r in t.ops && q != r
    ensures Disjoint(t, q, r)
  {
    assert OpAt(t.ops, pc, wrote, drawn, q) && OpAt(t.ops, pc, wrote, drawn, r);
  }

  lemma CoveredAdd<R>(t: Table<R>, q: R, r: R)
    requires q in t.ops && r in t.ops && Covered(t, r) && (q == r || Disjoint(t, q, r))
    ensures Covered(Add(t, q), r)
  {
  }

  lemma CoveredFresh<R>(t: Table<R>, r: R)
    requires r in t.ops
    ensures Covered(Add(t, r), r)
  {
  }

  lemma FreshTable<R>(t: Table<R>, q: R, r: R)
    requires q in t.ops && q != r
    ensures Unawaited(Add(t.(respWait := map[]), q), r)
  {
  }

  lemma CoveredRemove<R>(t: Table<R>, q: R, r: R)
    requires q in t.ops && r in t.ops && Covered(t, r) && Disjoint(t, q, r)
    ensures Covered(Remove(t, q), r)
  {
  }

  lemma CoveredRespond<R>(t: Table<R>, m: Response, r: R)
    requires t.Closed() && Covered(t, r)
    requires Respond(t, m).ops[r].resp.faults == []
    ensures Covered(Respond(t, m), r)
  {
    if m.id in t.respWait {
      var t' := Respond(t, m);
      var q := t.respWait[m.id];
      assert t'.ops.Keys == t.ops.Keys;
      if q == r && !t'.ops[r].resp.closed {
        AnsweredDelivers(t.ops[r], m);
      }
    }
  }

  /** A response forwarded to a healthy open channel with room is delivered. */
  lemma AnsweredDelivers(op: Op, m: Response)
    requires !op.Answered(m).resp.closed
    ensures forall id :: op.Delivered(id) ==> op.Answered(m).Delivered(id)
    ensures op.Answered(m).resp.faults == [] ==> op.Answered(m).Delivered(m.id)
  {
    var op' := op.Answered(m);
    forall id | op.Delivered(id) ensures op'.Delivered(id) {
      var k :| 0 <= k < |op.resp.sent| && op.resp.sent[k].id == id;
      assert op'.resp.sent[k].id == id;
    }
    if op'.resp.faults == [] {
      assert op'.resp.sent[|op.resp.sent|].id == m.id;
    }
  }

  lemma {:induction false} CoveredRespondAll<R>(t: Table<R>, pc: map<R, Pc>, wrote: map<R, nat>, drawn: Draws<R>,
                                                ms: seq<Response>, r: R)
    requires RequestsInv(t, pc, wrote, drawn) && t.Closed() && Covered(t, r)
    ensures Covered(RespondAll(t, ms), r)
    decreases |ms|
  {
    if ms != [] {
      KeepRespond(t, pc, wrote, drawn, ms[0]);
      assert OpAt(Respond(t, ms[0]).ops, pc, wrote, drawn, r);
      CoveredRespond(t, ms[0], r);
      CoveredRespondAll(Respond(t, ms[0]), pc, wrote, drawn, ms[1..], r);
    }
  }

  predicate Moves(act: CallerAct) {
    !act.Create? && !act.Draw? && !act.Handover? && !act.Reconnected? && !act.Receive? && !act.Timeout?
  }

  /** Most steps of a caller change only its own progress and the connections. */
  lemma LoopUntouched<R>(s: Sys<R>, q: R, act: CallerAct)
    requires s.WellFormed() && CallerEnabled(s, q, act) && Moves(act)
    ensures CallerEffect(s, q, act).loop == s.loop
  {
  }

  /** Waiting and received messages apart, the request and those waited for are as before. */
  lemma SameTable<R>(t: Table<R>, t': Table<R>, r: R)
    requires r in t.ops && r in t'.ops && t.respWait == t'.respWait
    requires t.ops[r].ids == t'.ops[r].ids && t.ops[r].resp.sent == t'.ops[r].resp.sent
    requires t.ops[r].resp.closed == t'.ops[r].resp.closed
    ensures Covered(t, r) <==> Covered(t', r)
    ensures Unawaited(t, r) <==> Unawaited(t', r)
    ensures FullyAnswered(t.ops[r]) <==> FullyAnswered(t'.ops[r])
  {
    assert forall id :: t.ops[r].Delivered(id) <==> t'.ops[r].Delivered(id);
    assert forall id :: WaitedFor(t, r, id) <==> WaitedFor(t', r, id);
  }

  // Nobody but a caller itself makes it progress.

  lemma OthersStay<R>(s: Sys<R>, q: R, act: CallerAct, r: R)
    requires s.WellFormed() && CallerEnabled(s, q, act) && q != r
    ensures r in s.pc <==> r in CallerEffect(s, q, act).pc
    ensures r in s.pc ==> CallerEffect(s, q, act).pc[r] == s.pc[r]
  {
    if Moves(act) {
      OthersStayInMove(s, q, act, r);
    }
  }

  lemma OthersStayInMove<R>(s: Sys<R>, q: R, act: CallerAct, r: R)
    requires s.WellFormed() && CallerEnabled(s, q, act) && q != r && Moves(act)
    ensures r in s.pc <==> r in CallerEffect(s, q, act).pc
    ensures r in s.pc ==> CallerEffect(s, q, act).pc[r] == s.pc[r]
  {
  }

  lemma NoCallerMoves<R>(s: Sys<R>, c: nat, ev: ConnEvent)
    requires s.WellFormed() && ConnEnabled(s, c, ev)
    ensures ConnEffect(s, c, ev).pc == s.pc
  {
  }

  // ---------------------------------------------------------------------------------------------
  // The fate of one request; `missed` says whether it has missed its answer so far.

  ghost predicate Fate<R>(loop: Loop<R>, phase: Phase, pc: map<R, Pc>, missed: bool, r: R) {
    && (r !in loop.table.ops || r !in pc ==> !missed)
    && (r in loop.table.ops && r in pc ==>
          && (pc[r].BeforeWrite() ==> !missed)
          && (pc[r].Holding? || pc[r].Offering? ==> Safe(loop, phase, r) || !loop.reading)
          && (Begun(pc[r]) ==> if missed then Stray(loop, phase, r) else Safe(loop, phase, r))
          && (!phase.Serving() && loop.reading ==> Unawaited(loop.table, r)))
  }

  ghost predicate FateOf<R>(s: Sys<R>, missed: bool, r: R) {
    Fate(s.loop, s.phase, s.pc, missed, r)
  }

  // Its own steps.

  lemma OwnMoveFate<R>(s: Sys<R>, r: R, act: CallerAct, m: bool)
    requires Inv(s) && CallerEnabled(s, r, act) && Moves(act) && !act.BeginWrite? && FateOf(s, m, r)
    ensures FateOf(CallerEffect(s, r, act), m, r)
  {
    LoopUntouched(s, r, act);
    assert CallerEffect(s, r, act).phase == s.phase;
  }

  /** A write that begins on an open connection has a live reader behind it, or the promise of one. */
  lemma OwnBeginWriteFate<R>(s: Sys<R>, r: R, m: bool)
    requires Inv(s) && CallerEnabled(s, r, BeginWrite) && FateOf(s, m, r)
    ensures FateOf(DoBeginWrite(s, r), m || MissesNow(s, ByCaller(r, BeginWrite), r), r)
  {
    assert WriteConnInv(s.Net()) && CurrentInv(s.Net()) && IncomingInv(s.Net());
  }

  lemma OwnBuildFate<R>(s: Sys<R>, r: R, act: CallerAct, m: bool)
    requires Inv(s) && CallerEnabled(s, r, act) && (act.Create? || act.Draw? || act.Timeout?) && FateOf(s, m, r)
    ensures FateOf(CallerEffect(s, r, act), m, r)
  {
    if act.Create? {
      assert Unawaited(s.loop.table, r);
    }
    assert FewerWaits(s.loop.table, CallerEffect(s, r, act).loop.table, r);
  }

  lemma OwnHandoverFate<R>(s: Sys<R>, r: R, m: bool)
    requires Inv(s) && CallerEnabled(s, r, Handover) && FateOf(s, m, r)
    ensures FateOf(DoHandover(s, r), m, r)
  {
    CoveredFresh(s.loop.table, r);
  }

  lemma OwnReconnectedFate<R>(s: Sys<R>, r: R, m: bool)
    requires Inv(s) && CallerEnabled(s, r, Reconnected) && FateOf(s, m, r)
    ensures FateOf(DoReconnected(s, r), m, r)
  {
    CoveredFresh(s.loop.table.(respWait := map[]), r);
  }

  lemma OwnReceiveFate<R>(s: Sys<R>, r: R, m: bool)
    requires Inv(s) && CallerEnabled(s, r, Receive) && FateOf(s, m, r)
    ensures FateOf(DoReceive(s, r), m, r)
  {
    SameTable(s.loop.table, DoReceive(s, r).loop.table, r);
  }

  // Steps of other callers.

  lemma OtherMoveFate<R>(s: Sys<R>, q: R, act: CallerAct, r: R, m: bool)
    requires Inv(s) && CallerEnabled(s, q, act) && q != r && Moves(act) && FateOf(s, m, r)
    ensures FateOf(CallerEffect(s, q, act), m, r)
  {
    LoopUntouched(s, q, act);
    assert CallerEffect(s, q, act).phase == s.phase;
    OthersStay(s, q, act, r);
  }

  lemma OtherStepFate<R>(s: Sys<R>, q: R, act: CallerAct, r: R, m: bool)
    requires Inv(s) && CallerEnabled(s, q, act) && q != r && s.HasOp(r) && FateOf(s, m, r)
    requires act.Create? || act.Draw? || act.Receive?
    ensures FateOf(CallerEffect(s, q, act), m, r)
  {
    SameTable(s.loop.table, CallerEffect(s, q, act).loop.table, r);
  }

  lemma OtherLoopStepFate<R>(s: Sys<R>, q: R, act: CallerAct, r: R, m: bool)
    requires Inv(s) && CallerEnabled(s, q, act) && q != r && s.HasOp(r) && FateOf(s, m, r)
    requires act.Handover? || act.Timeout?
    ensures FateOf(CallerEffect(s, q, act), m, r)
  {
    var t := s.loop.table;
    IdsDisjoint(t, s.pc, s.wrote, s.drawn, q, r);
    assert FewerWaits(t, CallerEffect(s, q, act).loop.table, r);
    if Covered(t, r) {
      if act.Handover? { CoveredAdd(t, q, r); } else { CoveredRemove(t, q, r); }
    }
  }

  lemma OtherReconnectedFate<R>(s: Sys<R>, q: R, r: R, m: bool)
    requires Inv(s) && CallerEnabled(s, q, Reconnected) && q != r && s.HasOp(r) && FateOf(s, m, r)
    ensures FateOf(DoReconnected(s, q), m, r)
  {
    OffererIsLastOp(s, q);
    if s.loop.reading {
      FateCancel(s.loop.table, ErrClientReconnected, Some(q), r);
    }
  }

  /** Cancelling all but another request: what was covered is closed or was answered, what was not
      waited for is left as it is. */
  lemma FateCancel<R>(t: Table<R>, e: Error, inflight: Option<R>, r: R)
    requires r in t.ops && inflight != Some(r)
    ensures Covered(t, r) ==> FullyAnswered(CancelAll(t, Some(e), inflight).ops[r])
    ensures Unawaited(t, r) ==> CancelAll(t, Some(e), inflight).ops[r] == t.ops[r]
  {
    if r in t.respWait.Values {
      var id :| id in t.respWait && t.respWait[id] == r;
      assert WaitedFor(t, r, id);
    } else {
      assert Unawaited(t, r);
    }
  }

  // Steps of connections and of the loop.

  lemma ReadFate<R>(s: Sys<R>, c: nat, r: R, m: bool)
    requires Inv(s) && ConnEnabled(s, c, DispatchMsgs) && s.HasOp(r) && FateOf(s, m, r)
    ensures FateOf(DoDispatchMsgs(s, c), m, r)
  {
    var t, ms := s.loop.table, s.conns[c].reader.msgs;
    LiveIsCurrent(s.Net(), c);
    if Covered(t, r) {
      CoveredRespondAll(t, s.pc, s.wrote, s.drawn, ms, r);
    }
    if Unawaited(t, r) {
      NotWaitedFor(t, ms, r);
    }
    KeepRespondAll(t, s.pc, s.wrote, s.drawn, ms);
  }

  lemma NotWaitedFor<R>(t: Table<R>, ms: seq<Response>, r: R)
    requires t.Closed() && r in t.ops && Unawaited(t, r)
    ensures var t' := RespondAll(t, ms); r in t'.ops && t'.ops[r] == t.ops[r] && Unawaited(t', r)
    decreases |ms|
  {
    if ms != [] {
      var t1 := Respond(t, ms[0]);
      assert FewerWaits(t, t1, r);
      assert ms[0].id in t.respWait ==> !WaitedFor(t, r, ms[0].id);
      NotWaitedFor(t1, ms[1..], r);
    }
  }

  lemma ReadErrFate<R>(s: Sys<R>, c: nat, r: R, m: bool)
    requires Inv(s) && ConnEnabled(s, c, DispatchErr) && s.HasOp(r) && FateOf(s, m, r)
    ensures FateOf(DoDispatchErr(s, c), m || MissesNow(s, OnConn(c, DispatchErr), r), r)
  {
    LiveIsCurrent(s.Net(), c);
    if s.loop.lastOp != Some(r) {
      FateCancel(s.loop.table, s.conns[c].reader.err, s.loop.lastOp, r);
    }
  }

  lemma DrainedFate<R>(s: Sys<R>, c: nat, r: R, m: bool)
    requires Inv(s) && ConnEnabled(s, c, DrainErr) && s.HasOp(r) && FateOf(s, m, r)
    ensures FateOf(DoDrainErr(s, c), m, r)
  {
    LiveIsCurrent(s.Net(), c);
    if s.loop.lastOp == Some(r) {
      CoveredFresh(s.loop.table.(respWait := map[]), r);
    }
  }

  lemma SentFate<R>(s: Sys<R>, r: R, m: bool)
    requires Inv(s) && Enabled(s, ReqSent) && s.HasOp(r) && FateOf(s, m, r)
    ensures FateOf(DoReqSent(s), m, r)
  {
    var t := s.loop.table;
    LockReleased(s.loop.lockFree, s.loop.lastOp, s.reqSent, s.pc);
    var q := s.loop.lastOp.value;
    if s.reqSent.sent[s.reqSent.taken].Some? && q != r {
      IdsDisjoint(t, s.pc, s.wrote, s.drawn, q, r);
      if Covered(t, r) {
        CoveredRemove(t, q, r);
      }
      assert FewerWaits(t, Remove(t, q), r);
    }
  }

  lemma CloseFate<R>(s: Sys<R>, r: R, m: bool)
    requires Inv(s) && Enabled(s, Close) && s.HasOp(r) && FateOf(s, m, r)
    ensures FateOf(DoClose(s), m, r)
  {
    if s.loop.reading {
      FateCancel(s.loop.table, ErrClientQuit, None, r);
    }
  }

  // Every step.

  lemma FateByItself<R>(s: Sys<R>, r: R, act: CallerAct, m: bool)
    requires Inv(s) && CallerEnabled(s, r, act) && FateOf(s, m, r)
    ensures FateOf(CallerEffect(s, r, act), m || MissesNow(s, ByCaller(r, act), r), r)
  {
    if act.BeginWrite? {
      OwnBeginWriteFate(s, r, m);
    } else if Moves(act) {
      OwnMoveFate(s, r, act, m);
    } else if act.Receive? {
      OwnReceiveFate(s, r, m);
    } else if act.Reconnected? {
      OwnReconnectedFate(s, r, m);
    } else if act.Handover? {
      OwnHandoverFate(s, r, m);
    } else {
      OwnBuildFate(s, r, act, m);
    }
  }

  lemma FateByOther<R>(s: Sys<R>, q: R, act: CallerAct, r: R, m: bool)
    requires Inv(s) && CallerEnabled(s, q, act) && q != r && FateOf(s, m, r)
    ensures FateOf(CallerEffect(s, q, act), m, r)
  {
    if Moves(act) {
      OtherMoveFate(s, q, act, r, m);
    } else if !s.HasOp(r) {
      OthersStay(s, q, act, r);
    } else if act.Reconnected? {
      OtherReconnectedFate(s, q, r, m);
    } else if act.Handover? || act.Timeout? {
      OtherLoopStepFate(s, q, act, r, m);
    } else {
      OtherStepFate(s, q, act, r, m);
    }
  }

  lemma FateOnConn<R>(s: Sys<R>, c: nat, ev: ConnEvent, r: R, m: bool)
    requires Inv(s) && ConnEnabled(s, c, ev) && FateOf(s, m, r)
    ensures FateOf(ConnEffect(s, c, ev), m || MissesNow(s, OnConn(c, ev), r), r)
  {
    NoCallerMoves(s, c, ev);
    if s.HasOp(r) {
      match ev
      case DispatchMsgs => ReadFate(s, c, r, m);
      case DispatchErr => ReadErrFate(s, c, r, m);
      case DrainErr => DrainedFate(s, c, r, m);
      case _ =>
    }
  }

  lemma FateStep<R>(s: Sys<R>, st: Step<R>, r: R, m: bool)
    requires Inv(s) && Enabled(s, st) && FateOf(s, m, r)
    ensures FateOf(Apply(s, st), m || MissesNow(s, st, r), r)
  {
    match st
    case ByCaller(q, act) => if q == r { FateByItself(s, r, act, m); } else { FateByOther(s, q, act, r, m); }
    case OnConn(c, ev) => FateOnConn(s, c, ev, r, m);
    case ReqSent => if s.HasOp(r) { SentFate(s, r, m); }
    case Close => if s.HasOp(r) { CloseFate(s, r, m); }
    case DrawUnused =>
  }

  ghost predicate EverMissed<R>(s: Sys<R>, steps: seq<Step<R>>, r: R)
    requires Run(s, steps)
  {
    Missed(s, steps, r, Interrupted) || Missed(s, steps, r, OnClosedConn)
  }

  lemma {:induction false} RunFate<R>(s: Sys<R>, steps: seq<Step<R>>, r: R, m: bool)
    requires Inv(s) && CalmRun(s, steps) && FateOf(s, m, r)
    ensures FateOf(Exec(s, steps), m || EverMissed(s, steps, r), r)
    decreases |steps|
  {
    if steps != [] {
      KeepStep(s, steps[0]);
      FateStep(s, steps[0], r, m);
      RunFate(Apply(s, steps[0]), steps[1..], r, m || MissesNow(s, steps[0], r));
    }
  }

  /** In every run, a caller whose write has begun is without something that nothing will bring (see
      `RequestLoss`) if and only if one of the two things has happened to it in the course of the run;
      otherwise it is safe. */
  lemma ForgottenExactlyWhen<R>(steps: seq<Step<R>>, r: R)
    requires CalmRun(Init(), steps) && Exec(Init(), steps).HasOp(r)
    requires r in Exec(Init(), steps).pc && Begun(Exec(Init(), steps).pc[r])
    ensures var s := Exec(Init(), steps);
            && (Stray(s.loop, s.phase, r) <==> EverMissed(Init(), steps, r))
            && (Safe(s.loop, s.phase, r) <==> !EverMissed(Init(), steps, r))
  {
    InitInv<R>();
    RunKeepsInv(Init(), steps);
    RunFate(Init(), steps, r, false);
    var s := Exec(Init(), steps);
    StrayIsNotSafe(s, r);
  }

  lemma StrayIsNotSafe<R>(s: Sys<R>, r: R)
    requires Inv(s) && s.HasOp(r)
    ensures Stray(s.loop, s.phase, r) ==> !Safe(s.loop, s.phase, r)
  {
  }
}
