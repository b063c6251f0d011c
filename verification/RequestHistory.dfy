/** What has happened to a request, told from the steps of a run alone: which responses were meant for
    it, what ended it, and what its waits returned. */
module RequestHistory {
  import opened Basics
  import opened Ids
  import opened RequestTable
  import opened RequestSafety
  import opened Connections
  import opened ClientProtocol
  import opened RequestFate
  import opened RequestRetirement
  import opened BatchCalls

  // ---------------------------------------------------------------------------------------------
  // The story

  /** What a reader has got last from the peer: a batch of responses, or the error that ends it. */
  datatype Mail = Batch(ms: seq<Response>) | Failure(e: Error)

  /** How a request ends: it is cancelled with an error, or, for a subscription, the server replies. */
  datatype Ending = Open | Cancelled(e: Error) | Replied(m: Response)

  /** The story of one request: what every reader has got last; the responses that the loop has handled
      while the request waited for them; what ended it first; how many waits have returned, and the
      responses they returned; and how its write, or the dialling before it, came out. */
  datatype Story = Story(mail: map<nat, Mail>, heard: seq<Response>, end: Ending, waits: nat, got: seq<Response>,
                         sendErr: Option<Error>)

  const UNTOLD := Story(map[], [], Open, 0, [], None)

  ghost function Posted<R>(mail: map<nat, Mail>, st: Step<R>): map<nat, Mail> {
    if !st.OnConn? then mail
    else match st.ev
      case PeerSends(ms) => mail[st.c := Batch(ms)]
      case PeerFails(e) => mail[st.c := Failure(e)]
      case _ => mail
  }

  /** Those of the responses whose id `r` waits for when they are handled, one after the other. */
  ghost function Heard<R>(wait: map<Id, R>, ms: seq<Response>, r: R): seq<Response> {
    if ms == [] then []
    else
      (if ms[0].id in wait && wait[ms[0].id] == r then [ms[0]] else []) + Heard(wait - {ms[0].id}, ms[1..], r)
  }

  ghost function HeardNow<R>(s: Sys<R>, mail: map<nat, Mail>, st: Step<R>, r: R): seq<Response> {
    if st.OnConn? && st.ev.DispatchMsgs? && st.c in mail && mail[st.c].Batch?
    then Heard(s.loop.table.respWait, mail[st.c].ms, r) else []
  }

  /** What ends `r` in this step, if it is waited for: a response to a subscription request; the reader's
      error or a new connection, unless `r` is in flight; or the end of the loop.  The last two matter
      only while a reader is live. */
  ghost function EndsNow<R>(s: Sys<R>, mail: map<nat, Mail>, st: Step<R>, r: R): Ending {
    if !s.HasOp(r) || r !in s.loop.table.respWait.Values then Open
    else
      match st
      case OnConn(c, DispatchMsgs) =>
        if s.OpOf(r).isSub && HeardNow(s, mail, st, r) != [] then Replied(HeardNow(s, mail, st, r)[0]) else Open
      case OnConn(c, DispatchErr) =>
        if s.loop.lastOp != Some(r) && c in mail && mail[c].Failure? then Cancelled(mail[c].e) else Open
      case ByCaller(_, Reconnected) =>
        if s.loop.lastOp != Some(r) && s.loop.reading then Cancelled(ErrClientReconnected) else Open
      case Close => if s.loop.reading then Cancelled(ErrClientQuit) else Open
      case _ => Open
  }

  ghost predicate Receives<R>(s: Sys<R>, st: Step<R>, r: R) {
    st == ByCaller(r, Receive) && s.HasOp(r) && s.OpOf(r).resp.CanReceive()
  }

  ghost function SendErr<R>(e: Option<Error>, st: Step<R>, r: R): Option<Error> {
    if !st.ByCaller? || st.r != r then e
    else match st.act
      case DialFail(de) => Some(de)
      case DialRefused => Some(ErrClientQuit)
      case FinishWrite(we) => we
      case _ => e
  }

  ghost function Next<R>(h: Story, s: Sys<R>, st: Step<R>, r: R): Story {
    Story(Posted(h.mail, st),
          h.heard + HeardNow(s, h.mail, st, r),
          if h.end.Open? then EndsNow(s, h.mail, st, r) else h.end,
          h.waits + (if Receives(s, st, r) then 1 else 0),
          h.got + (if Receives(s, st, r) && WaitResult(s.OpOf(r)).0.Some? then [WaitResult(s.OpOf(r)).0.value] else []),
          SendErr(h.sendErr, st, r))
  }

  ghost function Told<R>(h: Story, s: Sys<R>, steps: seq<Step<R>>, r: R): Story
    requires Run(s, steps)
    decreases |steps|
  {
    if steps == [] then h else Told(Next(h, s, steps[0], r), Apply(s, steps[0]), steps[1..], r)
  }

  // ---------------------------------------------------------------------------------------------
  // The machine agrees with it

  ghost predicate Agrees(conns: seq<Conn>, mail: map<nat, Mail>) {
    forall c {:trigger conns[c]} :: 0 <= c < |conns| ==>
      && (conns[c].reader.HasMsgs? ==> c in mail && mail[c] == Batch(conns[c].reader.msgs))
      && (conns[c].reader.HasErr? ==> c in mail && mail[c] == Failure(conns[c].reader.err))
  }

  /** What the readers hold is what they held before. */
  ghost predicate NoNews(conns: seq<Conn>, conns': seq<Conn>) {
    forall c {:trigger conns'[c]} :: 0 <= c < |conns'| && (conns'[c].reader.HasMsgs? || conns'[c].reader.HasErr?) ==>
      c < |conns| && conns[c].reader == conns'[c].reader
  }

  lemma NoNewsByCaller<R>(s: Sys<R>, q: R, act: CallerAct)
    requires s.WellFormed() && CallerEnabled(s, q, act)
    ensures NoNews(s.conns, CallerEffect(s, q, act).conns)
  {
    match act
    case Dial => assert NoNews(s.conns, DoDial(s, q).conns);
    case Reconnected => assert NoNews(s.conns, DoReconnected(s, q).conns);
    case DialRefused => assert NoNews(s.conns, DoDialRefused(s, q).conns);
    case _ => assert CallerEffect(s, q, act).conns == s.conns;
  }

  lemma AgreesOnConn<R>(s: Sys<R>, mail: map<nat, Mail>, c: nat, ev: ConnEvent)
    requires s.WellFormed() && ConnEnabled(s, c, ev) && Agrees(s.conns, mail)
    ensures Agrees(ConnEffect(s, c, ev).conns, Posted<R>(mail, OnConn(c, ev)))
  {
    match ev
    case PeerSends(ms) =>
    case PeerFails(e) =>
    case _ => assert NoNews(s.conns, ConnEffect(s, c, ev).conns);
  }

  lemma KeepAgrees<R>(s: Sys<R>, mail: map<nat, Mail>, st: Step<R>)
    requires s.WellFormed() && Enabled(s, st) && Agrees(s.conns, mail)
    ensures Agrees(Apply(s, st).conns, Posted(mail, st))
  {
    match st
    case ByCaller(q, act) => NoNewsByCaller(s, q, act);
    case OnConn(c, ev) => AgreesOnConn(s, mail, c, ev);
    case _ => assert NoNews(s.conns, Apply(s, st).conns);
  }

  /** The error recorded with the reply to a subscription request: the server's, or none exactly if the
      subscription's id can be read. */
  predicate Records(err: Option<Error>, m: Response) {
    if m.error.Some? then err == m.error else err.None? <==> m.subid.Some?
  }

  /** The caller's channel holds what was heard, as it was heard, and is closed exactly if the request has
      ended, with the error of that end. */
  ghost predicate Recorded(op: Op, heard: seq<Response>, end: Ending) {
    && op.resp.sent == (if op.isSub then [] else heard)
    && (op.resp.closed <==> !end.Open?)
    && match end
       case Open => op.err.None?
       case Cancelled(e) => op.err == Some(e)
       case Replied(m) => op.isSub && Records(op.err, m)
  }

  ghost predicate ChannelAgrees<R>(s: Sys<R>, heard: seq<Response>, end: Ending, r: R) {
    if s.HasOp(r) then Recorded(s.OpOf(r), heard, end) else heard == [] && end.Open?
  }

  /** The waits have returned the first responses, one each; the outcome of the write is what the caller
      is about to signal. */
  ghost predicate CallerAgrees<R>(s: Sys<R>, h: Story, r: R) {
    && (s.HasOp(r) && r in s.pc ==>
          && s.OpOf(r).resp.taken <= |s.OpOf(r).resp.sent| && h.got == s.OpOf(r).resp.sent[..s.OpOf(r).resp.taken]
          && (!s.pc[r].Returned? ==> h.waits == |h.got|)
          && (s.pc[r].Waiting? ==> s.pc[r].left > 0 && (s.OpOf(r).isSub ==> s.pc[r].left == 1))
          && (s.pc[r].Wrote? ==> s.pc[r].err == h.sendErr))
    && (!s.HasOp(r) ==> h.got == [] && h.waits == 0)
  }

  lemma {:induction false} NotHeard<R>(wait: map<Id, R>, ms: seq<Response>, r: R)
    requires r !in wait.Values
    ensures Heard(wait, ms, r) == []
    decreases |ms|
  {
    if ms != [] {
      NotHeard(wait - {ms[0].id}, ms[1..], r);
    }
  }

  ghost predicate Waits<R>(t: Table<R>, r: R) {
    r in t.respWait.Values
  }

  lemma WaitingIsOpen<R>(t: Table<R>, pc: map<R, Pc>, r: R)
    requires PendingsInv(t, pc) && Waits(t, r)
    ensures r in t.ops && !t.ops[r].resp.closed
  {
    var id :| id in t.respWait && t.respWait[id] == r;
    assert PendingAt(t, pc, id);
  }

  /** One response: a call's channel gets it as it is; a subscription request is closed. */
  lemma RespondOne<R>(t: Table<R>, pc: map<R, Pc>, wrote: map<R, nat>, drawn: Draws<R>, m: Response, r: R)
    requires RequestsInv(t, pc, wrote, drawn) && t.Closed() && r in t.ops
    ensures var t' := Respond(t, m);
            && r in t'.ops && t'.ops[r].isSub == t.ops[r].isSub
            && if !WaitedFor(t, r, m.id) then t'.ops[r] == t.ops[r]
               else
                 && !t.ops[r].resp.closed
                 && t'.ops[r].resp.sent == t.ops[r].resp.sent + (if t.ops[r].isSub then [] else [m])
                 && (t'.ops[r].resp.closed <==> t.ops[r].isSub)
                 && (if t.ops[r].isSub then Records(t'.ops[r].err, m) else t'.ops[r].err == t.ops[r].err)
  {
    if WaitedFor(t, r, m.id) {
      assert PendingAt(t, pc, m.id);
      assert OpAt(t.ops, pc, wrote, drawn, r);
      KeepRespond(t, pc, wrote, drawn, m);
      assert OpAt(Respond(t, m).ops, pc, wrote, drawn, r);
    }
  }

  /** A batch for a call, and for a subscription request. */
  lemma {:induction false} CallHears<R>(t: Table<R>, pc: map<R, Pc>, wrote: map<R, nat>, drawn: Draws<R>,
                                        ms: seq<Response>, r: R)
    requires RequestsInv(t, pc, wrote, drawn) && t.Closed() && r in t.ops && !t.ops[r].isSub
    ensures var t' := RespondAll(t, ms);
            && r in t'.ops && !t'.ops[r].isSub && t'.ops[r].err == t.ops[r].err
            && t'.ops[r].resp.sent == t.ops[r].resp.sent + Heard(t.respWait, ms, r)
            && t'.ops[r].resp.closed == t.ops[r].resp.closed
    decreases |ms|
  {
    if ms != [] {
      RespondOne(t, pc, wrote, drawn, ms[0], r);
      KeepRespond(t, pc, wrote, drawn, ms[0]);
      CallHears(Respond(t, ms[0]), pc, wrote, drawn, ms[1..], r);
      assert Respond(t, ms[0]).respWait == t.respWait - {ms[0].id};
    }
  }

  lemma {:induction false} SubscriptionHears<R>(t: Table<R>, pc: map<R, Pc>, wrote: map<R, nat>, drawn: Draws<R>,
                                                ms: seq<Response>, r: R)
    requires RequestsInv(t, pc, wrote, drawn) && t.Closed() && r in t.ops && t.ops[r].isSub
    ensures var t', heard := RespondAll(t, ms), Heard(t.respWait, ms, r);
            && r in t'.ops && t'.ops[r].isSub && t'.ops[r].resp.sent == t.ops[r].resp.sent
            && if heard == [] then t'.ops[r] == t.ops[r]
               else Waits(t, r) && t'.ops[r].resp.closed && Records(t'.ops[r].err, heard[0])
    decreases |ms|
  {
    if ms != [] {
      var m, t1 := ms[0], Respond(t, ms[0]);
      RespondOne(t, pc, wrote, drawn, m, r);
      KeepRespond(t, pc, wrote, drawn, m);
      SubscriptionHears(t1, pc, wrote, drawn, ms[1..], r);
      assert t1.respWait == t.respWait - {m.id};
      if WaitedFor(t, r, m.id) {
        if Waits(t1, r) {
          WaitingIsOpen(t1, pc, r);
          assert false;
        }
        NotHeard(t1.respWait, ms[1..], r);
      }
    }
  }

  lemma {:induction false} NobodyNew<R>(t: Table<R>, ms: seq<Response>, r: R)
    requires t.Closed() && r !in t.ops
    ensures r !in RespondAll(t, ms).ops
    decreases |ms|
  {
    if ms != [] {
      NobodyNew(Respond(t, ms[0]), ms[1..], r);
    }
  }

  lemma CancelEnds<R>(t: Table<R>, pc: map<R, Pc>, e: Error, inflight: Option<R>, r: R)
    requires PendingsInv(t, pc) && r in t.ops
    ensures var op, op' := t.ops[r], CancelAll(t, Some(e), inflight).ops[r];
            if Waits(t, r) && inflight != Some(r)
            then !op.resp.closed && op'.resp.closed && op'.err == Some(e) && op'.resp.sent == op.resp.sent
                 && op'.isSub == op.isSub
            else op' == op
  {
    if Waits(t, r) {
      WaitingIsOpen(t, pc, r);
    }
  }

  // One step: the channel.

  lemma ChannelDispatch<R>(s: Sys<R>, h: Story, c: nat, r: R)
    requires Inv(s) && ConnEnabled(s, c, DispatchMsgs) && Agrees(s.conns, h.mail) && ChannelAgrees(s, h.heard, h.end, r)
    ensures var h' := Next(h, s, OnConn(c, DispatchMsgs), r); ChannelAgrees(DoDispatchMsgs(s, c), h'.heard, h'.end, r)
  {
    var ms := s.conns[c].reader.msgs;
    if Waits(s.loop.table, r) {
      WaitingIsOpen(s.loop.table, s.pc, r);
    } else {
      NotHeard(s.loop.table.respWait, ms, r);
    }
    if !s.HasOp(r) {
      NobodyNew(s.loop.table, ms, r);
    } else if s.OpOf(r).isSub {
      SubscriptionHears(s.loop.table, s.pc, s.wrote, s.drawn, ms, r);
    } else {
      CallHears(s.loop.table, s.pc, s.wrote, s.drawn, ms, r);
    }
  }

  /** All pending requests but the one in flight are cancelled. */
  lemma ChannelCancel<R>(t: Table<R>, pc: map<R, Pc>, e: Error, inflight: Option<R>, r: R,
                         heard: seq<Response>, end: Ending)
    requires PendingsInv(t, pc) && r in t.ops && Recorded(t.ops[r], heard, end)
    ensures Recorded(CancelAll(t, Some(e), inflight).ops[r], heard,
                     if end.Open? && Waits(t, r) && inflight != Some(r) then Cancelled(e) else end)
  {
    CancelEnds(t, pc, e, inflight, r);
  }

  lemma ChannelMove<R>(s: Sys<R>, h: Story, q: R, act: CallerAct, r: R)
    requires Inv(s) && CallerEnabled(s, q, act) && Moves(act) && ChannelAgrees(s, h.heard, h.end, r)
    ensures ChannelAgrees(CallerEffect(s, q, act), h.heard, h.end, r)
  {
    LoopUntouched(s, q, act);
  }

  lemma ChannelOwn<R>(s: Sys<R>, h: Story, q: R, act: CallerAct, r: R)
    requires Inv(s) && CallerEnabled(s, q, act) && !Moves(act) && !act.Reconnected?
    requires ChannelAgrees(s, h.heard, h.end, r)
    ensures ChannelAgrees(CallerEffect(s, q, act), h.heard, h.end, r)
  {
  }

  lemma ChannelReconnected<R>(s: Sys<R>, h: Story, q: R, r: R)
    requires Inv(s) && CallerEnabled(s, q, Reconnected) && ChannelAgrees(s, h.heard, h.end, r)
    ensures ChannelAgrees(DoReconnected(s, q), h.heard, Next(h, s, ByCaller(q, Reconnected), r).end, r)
  {
    if s.HasOp(r) {
      ChannelCancel(s.loop.table, s.pc, ErrClientReconnected, s.loop.lastOp, r, h.heard, h.end);
    }
  }

  lemma ChannelByCaller<R>(s: Sys<R>, h: Story, q: R, act: CallerAct, r: R)
    requires Inv(s) && CallerEnabled(s, q, act) && ChannelAgrees(s, h.heard, h.end, r)
    ensures ChannelAgrees(CallerEffect(s, q, act), h.heard, Next(h, s, ByCaller(q, act), r).end, r)
  {
    if Moves(act) {
      ChannelMove(s, h, q, act, r);
    } else if act.Reconnected? {
      ChannelReconnected(s, h, q, r);
    } else {
      ChannelOwn(s, h, q, act, r);
    }
  }

  lemma ChannelOnConn<R>(s: Sys<R>, h: Story, c: nat, ev: ConnEvent, r: R)
    requires Inv(s) && ConnEnabled(s, c, ev) && Agrees(s.conns, h.mail) && ChannelAgrees(s, h.heard, h.end, r)
    ensures var h' := Next(h, s, OnConn(c, ev), r); ChannelAgrees(ConnEffect(s, c, ev), h'.heard, h'.end, r)
  {
    assert h.heard + [] == h.heard;
    if ev.DispatchMsgs? {
      ChannelDispatch(s, h, c, r);
    } else if ev.DispatchErr? && s.HasOp(r) {
      ChannelCancel(s.loop.table, s.pc, s.conns[c].reader.err, s.loop.lastOp, r, h.heard, h.end);
    }
  }

  lemma ChannelByLoop<R>(s: Sys<R>, h: Story, st: Step<R>, r: R)
    requires Inv(s) && Enabled(s, st) && (st.DrawUnused? || st.ReqSent? || st.Close?)
    requires ChannelAgrees(s, h.heard, h.end, r)
    ensures var h' := Next(h, s, st, r); ChannelAgrees(Apply(s, st), h'.heard, h'.end, r)
  {
    assert h.heard + [] == h.heard;
    if st.Close? && s.HasOp(r) {
      ChannelCancel(s.loop.table, s.pc, ErrClientQuit, None, r, h.heard, h.end);
    }
  }

  lemma ChannelStep<R>(s: Sys<R>, h: Story, st: Step<R>, r: R)
    requires Inv(s) && Enabled(s, st) && Agrees(s.conns, h.mail) && ChannelAgrees(s, h.heard, h.end, r)
    ensures var h' := Next(h, s, st, r); ChannelAgrees(Apply(s, st), h'.heard, h'.end, r)
  {
    match st
    case ByCaller(q, act) => assert h.heard + [] == h.heard; ChannelByCaller(s, h, q, act, r);
    case OnConn(c, ev) => ChannelOnConn(s, h, c, ev, r);
    case _ => ChannelByLoop(s, h, st, r);
  }

  // One step: the caller.

  /** More may have been sent, and the channel may have been closed. */
  ghost predicate Grown(op: Op, op': Op) {
    op'.isSub == op.isSub && op'.resp.taken == op.resp.taken && op.resp.sent <= op'.resp.sent
  }

  lemma CallerStays<R>(s: Sys<R>, s': Sys<R>, h: Story, h': Story, r: R)
    requires CallerAgrees(s, h, r) && h'.got == h.got && h'.waits == h.waits
    requires (s.HasOp(r) <==> s'.HasOp(r)) && (s.HasOp(r) ==> Grown(s.OpOf(r), s'.OpOf(r)))
    requires (r in s.pc <==> r in s'.pc) && h'.sendErr == h.sendErr
    requires r in s.pc ==> s'.pc[r] == s.pc[r] || (s.pc[r].Offering? && s'.pc[r].Holding?)
    ensures CallerAgrees(s', h', r)
  {
  }

  lemma CallerMoves<R>(s: Sys<R>, h: Story, r: R, act: CallerAct)
    requires Inv(s) && CallerEnabled(s, r, act) && Moves(act) && CallerAgrees(s, h, r)
    ensures CallerAgrees(CallerEffect(s, r, act), Next(h, s, ByCaller(r, act), r), r)
  {
    assert OpAt(s.loop.table.ops, s.pc, s.wrote, s.drawn, r);
    LoopUntouched(s, r, act);
    assert h.got + [] == h.got;
  }

  lemma CallerOwn<R>(s: Sys<R>, h: Story, r: R, act: CallerAct)
    requires Inv(s) && CallerEnabled(s, r, act) && !Moves(act) && !act.Receive? && !act.Reconnected?
    requires CallerAgrees(s, h, r)
    ensures CallerAgrees(CallerEffect(s, r, act), Next(h, s, ByCaller(r, act), r), r)
  {
    assert h.got + [] == h.got;
  }

  lemma CallerReceives<R>(s: Sys<R>, h: Story, r: R)
    requires Inv(s) && CallerEnabled(s, r, Receive) && CallerAgrees(s, h, r)
    ensures CallerAgrees(DoReceive(s, r), Next(h, s, ByCaller(r, Receive), r), r)
  {
    assert OpAt(s.loop.table.ops, s.pc, s.wrote, s.drawn, r);
    var op := s.OpOf(r);
    if op.resp.taken < |op.resp.sent| {
      assert op.resp.sent[..op.resp.taken + 1] == op.resp.sent[..op.resp.taken] + [op.resp.sent[op.resp.taken]];
    }
  }

  lemma ReconnectGrows<R>(s: Sys<R>, q: R, r: R)
    requires Inv(s) && CallerEnabled(s, q, Reconnected)
    ensures var s' := DoReconnected(s, q);
            && (s.HasOp(r) <==> s'.HasOp(r)) && (s.HasOp(r) ==> Grown(s.OpOf(r), s'.OpOf(r)))
            && s'.pc == s.pc[q := Holding]
  {
    if s.HasOp(r) {
      CancelEnds(s.loop.table, s.pc, ErrClientReconnected, s.loop.lastOp, r);
    }
  }

  lemma CallerReconnected<R>(s: Sys<R>, h: Story, q: R, r: R)
    requires Inv(s) && CallerEnabled(s, q, Reconnected) && CallerAgrees(s, h, r)
    ensures CallerAgrees(DoReconnected(s, q), Next(h, s, ByCaller(q, Reconnected), r), r)
  {
    var s', h' := DoReconnected(s, q), Next(h, s, ByCaller(q, Reconnected), r);
    ReconnectGrows(s, q, r);
    assert h'.got == h.got && h'.waits == h.waits && h'.sendErr == h.sendErr;
    CallerStays(s, s', h, h', r);
  }

  lemma CallerByOther<R>(s: Sys<R>, h: Story, q: R, act: CallerAct, r: R)
    requires Inv(s) && CallerEnabled(s, q, act) && q != r && !act.Reconnected? && CallerAgrees(s, h, r)
    ensures CallerAgrees(CallerEffect(s, q, act), Next(h, s, ByCaller(q, act), r), r)
  {
    OthersStay(s, q, act, r);
    if Moves(act) {
      LoopUntouched(s, q, act);
    }
  }

  lemma CallerOnConn<R>(s: Sys<R>, h: Story, c: nat, ev: ConnEvent, r: R)
    requires Inv(s) && ConnEnabled(s, c, ev) && CallerAgrees(s, h, r)
    ensures CallerAgrees(ConnEffect(s, c, ev), Next(h, s, OnConn(c, ev), r), r)
  {
    NoCallerMoves(s, c, ev);
    assert h.got + [] == h.got;
    if ev.DispatchMsgs? {
      DispatchGrows(s, c, r);
    } else if ev.DispatchErr? && s.HasOp(r) {
      CancelEnds(s.loop.table, s.pc, s.conns[c].reader.err, s.loop.lastOp, r);
    }
    CallerStays(s, ConnEffect(s, c, ev), h, Next(h, s, OnConn(c, ev), r), r);
  }

  lemma DispatchGrows<R>(s: Sys<R>, c: nat, r: R)
    requires Inv(s) && ConnEnabled(s, c, DispatchMsgs)
    ensures var s' := DoDispatchMsgs(s, c);
            (s.HasOp(r) <==> s'.HasOp(r)) && (s.HasOp(r) ==> Grown(s.OpOf(r), s'.OpOf(r)))
  {
    var ms := s.conns[c].reader.msgs;
    if !s.HasOp(r) {
      NobodyNew(s.loop.table, ms, r);
    } else {
      RespondedTo(s.loop.table, ms, r);
      if s.OpOf(r).isSub {
        SubscriptionHears(s.loop.table, s.pc, s.wrote, s.drawn, ms, r);
      } else {
        CallHears(s.loop.table, s.pc, s.wrote, s.drawn, ms, r);
      }
    }
  }

  lemma CallerByLoop<R>(s: Sys<R>, h: Story, st: Step<R>, r: R)
    requires Inv(s) && Enabled(s, st) && (st.DrawUnused? || st.ReqSent?) && CallerAgrees(s, h, r)
    ensures CallerAgrees(Apply(s, st), Next(h, s, st, r), r)
  {
    assert h.got + [] == h.got;
    CallerStays(s, Apply(s, st), h, Next(h, s, st, r), r);
  }

  lemma CallerClose<R>(s: Sys<R>, h: Story, r: R)
    requires Inv(s) && s.phase.Looping? && CallerAgrees(s, h, r)
    ensures CallerAgrees(DoClose(s), Next(h, s, Close, r), r)
  {
    assert h.got + [] == h.got;
    if s.HasOp(r) {
      CancelEnds(s.loop.table, s.pc, ErrClientQuit, None, r);
    }
    CallerStays(s, DoClose(s), h, Next(h, s, Close, r), r);
  }

  lemma CallerStep<R>(s: Sys<R>, h: Story, st: Step<R>, r: R)
    requires Inv(s) && Enabled(s, st) && CallerAgrees(s, h, r)
    ensures CallerAgrees(Apply(s, st), Next(h, s, st, r), r)
  {
    match st
    case ByCaller(q, act) =>
      if act.Reconnected? { CallerReconnected(s, h, q, r); }
      else if q != r { CallerByOther(s, h, q, act, r); }
      else if act.Receive? { CallerReceives(s, h, r); }
      else if Moves(act) { CallerMoves(s, h, r, act); }
      else { CallerOwn(s, h, r, act); }
    case OnConn(c, ev) => CallerOnConn(s, h, c, ev, r);
    case Close => CallerClose(s, h, r);
    case _ => CallerByLoop(s, h, st, r);
  }

  // Runs.

  ghost predicate True<R>(s: Sys<R>, h: Story, r: R) {
    Inv(s) && Agrees(s.conns, h.mail) && ChannelAgrees(s, h.heard, h.end, r) && CallerAgrees(s, h, r)
  }

  lemma TrueStep<R>(s: Sys<R>, h: Story, st: Step<R>, r: R)
    requires True(s, h, r) && Enabled(s, st) && CalmStep(s, st)
    ensures True(Apply(s, st), Next(h, s, st, r), r)
  {
    KeepStep(s, st);
    KeepAgrees(s, h.mail, st);
    ChannelStep(s, h, st, r);
    CallerStep(s, h, st, r);
  }

  lemma {:induction false} StaysTrue<R>(s: Sys<R>, h: Story, steps: seq<Step<R>>, r: R)
    requires True(s, h, r) && CalmRun(s, steps)
    ensures True(Exec(s, steps), Told(h, s, steps, r), r)
    decreases |steps|
  {
    if steps != [] {
      TrueStep(s, h, steps[0], r);
      StaysTrue(Apply(s, steps[0]), Next(h, s, steps[0], r), steps[1..], r);
    }
  }

  ghost function StoryOf<R>(steps: seq<Step<R>>, r: R): Story
    requires Run(Init(), steps)
  {
    Told(UNTOLD, Init(), steps, r)
  }

  lemma StoryIsTrue<R>(steps: seq<Step<R>>, r: R)
    requires CalmRun(Init(), steps)
    ensures True(Exec(Init(), steps), StoryOf(steps, r), r)
  {
    InitInv<R>();
    StaysTrue(Init(), UNTOLD, steps, r);
  }

  // ---------------------------------------------------------------------------------------------
  // What it means

  /** In every calm run, the channel of a call or batch has been sent exactly the responses that the loop
      handled while the request waited for their ids, whole and in that order; a subscription request is
      sent nothing. */
  lemma SentIsHeard<R>(steps: seq<Step<R>>, r: R)
    requires CalmRun(Init(), steps) && Exec(Init(), steps).HasOp(r)
    ensures var op := Exec(Init(), steps).OpOf(r);
            op.resp.sent == if op.isSub then [] else StoryOf(steps, r).heard
  {
    StoryIsTrue(steps, r);
  }

  /** In every calm run, a channel is closed exactly if the request has been ended, by what the loop did
      first of all: with the error of the reader, of the new connection or of the end of the loop, or, for a
      subscription request, with what the server's reply says. */
  lemma ClosedAsTold<R>(steps: seq<Step<R>>, r: R)
    requires CalmRun(Init(), steps) && Exec(Init(), steps).HasOp(r)
    ensures var op, end := Exec(Init(), steps).OpOf(r), StoryOf(steps, r).end;
            && (op.resp.closed <==> !end.Open?)
            && (end.Open? ==> op.err.None?)
            && (end.Cancelled? ==> op.err == Some(end.e))
            && (end.Replied? ==> op.isSub && (end.m.error.Some? ==> op.err == end.m.error)
                                 && (end.m.error.None? ==> (op.err.None? <==> end.m.subid.Some?)))
  {
    StoryIsTrue(steps, r);
  }

  /** In every calm run, the next `wait` returns the response after those that earlier waits have returned,
      if there is one, and the error with which the request has been ended, if it has. */
  lemma WaitReturns<R>(steps: seq<Step<R>>, r: R)
    requires CalmRun(Init(), steps) && CallerEnabled(Exec(Init(), steps), r, Receive)
    ensures var op, h := Exec(Init(), steps).OpOf(r), StoryOf(steps, r); var (resp, err) := WaitResult(op);
            && resp == (if !op.isSub && h.waits < |h.heard| then Some(h.heard[h.waits]) else None)
            && (h.end.Open? ==> resp.Some? && err.None?)
            && (h.end.Cancelled? ==> err == Some(h.end.e))
            && (h.end.Replied? ==> op.isSub && Records(err, h.end.m))
  {
    StoryIsTrue(steps, r);
  }

  /** In every calm run, what the waits of a call or batch have returned is what it was sent first. */
  lemma GotIsSent<R>(steps: seq<Step<R>>, r: R)
    requires CalmRun(Init(), steps) && Exec(Init(), steps).HasOp(r)
    ensures var resp := Exec(Init(), steps).OpOf(r).resp;
            resp.taken <= |resp.sent| && StoryOf(steps, r).got == resp.sent[..resp.taken]
  {
    StoryIsTrue(steps, r);
    InitInv<R>();
    RunKeepsInv(Init(), steps);
  }

  /** In every calm run, what `BatchCalls.BatchCallContext` requires of the responses that come out of its
      waits is true of those that do: when a wait fails, and when the last one has succeeded. */
  lemma BatchIsFed<R>(steps: seq<Step<R>>, r: R, e: Error)
    requires CalmRun(Init(), steps) && Exec(Init(), steps).HasOp(r) && !Exec(Init(), steps).OpOf(r).isSub
    requires r in Exec(Init(), steps).pc && Exec(Init(), steps).pc[r].Waiting?
    ensures var s, got := Exec(Init(), steps), StoryOf(steps, r).got; var op := s.OpOf(r);
            && |got| + s.pc[r].left == |op.ids|
            && Feeds(op.ids, got, Some((|got|, e)))
            && (op.resp.CanReceive() && WaitResult(op).1.None? ==>
                  && WaitResult(op).0.Some? && AnswersTo(op.ids, got + [WaitResult(op).0.value])
                  && (s.pc[r].left == 1 ==> Feeds(op.ids, got + [WaitResult(op).0.value], None)))
  {
    StoryIsTrue(steps, r);
    LastResponseCompletes(steps, r);
    var s := Exec(Init(), steps);
    assert OpAt(s.loop.table.ops, s.pc, s.wrote, s.drawn, r);
    PrefixAnswers(s.OpOf(r).ids, s.OpOf(r).resp.sent, s.OpOf(r).resp.taken);
  }

  /** What has been received, with the next response or without it, carries different ids of the request. */
  lemma PrefixAnswers(ids: seq<Id>, sent: seq<Response>, n: nat)
    requires AnswersTo(ids, sent) && n <= |sent|
    ensures AnswersTo(ids, sent[..n]) && (n < |sent| ==> AnswersTo(ids, sent[..n] + [sent[n]]))
  {
    if n < |sent| {
      assert sent[..n] + [sent[n]] == sent[..n + 1];
    }
  }

  /** In every calm run, when `wait` on a subscription request can return, it returns no error, so that
      `Subscribe` returns the subscription, if and only if the request was ended by a reply that is not an
      error and carries an id that can be read. */
  lemma SubscribesExactlyIfAccepted<R>(steps: seq<Step<R>>, r: R)
    requires CalmRun(Init(), steps)
    requires Exec(Init(), steps).HasOp(r) && Exec(Init(), steps).OpOf(r).isSub
    requires Exec(Init(), steps).OpOf(r).resp.CanReceive()
    ensures var end := StoryOf(steps, r).end;
            WaitResult(Exec(Init(), steps).OpOf(r)).1.None? <==>
            end.Replied? && end.m.error.None? && end.m.subid.Some?
  {
    StoryIsTrue(steps, r);
    NoErrorIfAccepted(Exec(Init(), steps).OpOf(r), StoryOf(steps, r));
  }

  lemma NoErrorIfAccepted(op: Op, h: Story)
    requires Recorded(op, h.heard, h.end) && op.isSub && op.resp.CanReceive()
    ensures WaitResult(op).1.None? <==> h.end.Replied? && h.end.m.error.None? && h.end.m.subid.Some?
  {
  }

  /** In every calm run, what a caller signals to the loop is how its write came out, or the dialling before
      it; with an error, and without ids, its call is over, and otherwise it waits for one response per id. */
  lemma SignalReports<R>(steps: seq<Step<R>>, r: R)
    requires CalmRun(Init(), steps) && CallerEnabled(Exec(Init(), steps), r, SignalSent)
    ensures var s := Exec(Init(), steps); var s', e := Apply(s, ByCaller(r, SignalSent)), StoryOf(steps, r).sendErr;
            && s'.reqSent.sent == s.reqSent.sent + [e] && s'.reqSent.taken == |s.reqSent.sent|
            && s'.pc[r] == if e.Some? || s.OpOf(r).ids == [] then Returned else Waiting(|s.OpOf(r).ids|)
  {
    StoryIsTrue(steps, r);
  }
}
