/** A peer that answers only what it has been asked: no reconnection can then find that the request in
    flight has been answered before, so that all guarantees hold without further ado. */
module SolicitedPeers {
  import opened Basics
  import opened Ids
  import opened RequestTable
  import opened RequestSafety
  import opened Connections
  import opened ClientProtocol
  import opened RequestFate

  /** A response whose id the client draws comes only on the connection the request was written to, and
      only once that write has begun. */
  ghost predicate Solicited<R>(drawn: Draws<R>, wrote: map<R, nat>, c: nat, m: Response) {
    && (Drawable(m.id) ==> m.id in drawn)
    && (m.id in drawn && drawn[m.id].Some? ==> drawn[m.id].value in wrote && wrote[drawn[m.id].value] == c)
  }

  /** Messages that a reader holds for the loop were solicited. */
  ghost predicate MailInv<R>(conns: seq<Conn>, drawn: Draws<R>, wrote: map<R, nat>) {
    forall c: nat {:trigger MailAt(conns, drawn, wrote, c)} :: c < |conns| ==> MailAt(conns, drawn, wrote, c)
  }

  ghost predicate MailAt<R>(conns: seq<Conn>, drawn: Draws<R>, wrote: map<R, nat>, c: nat) {
    c < |conns| && (conns[c].reader.HasMsgs? ==> Mail(conns[c].reader.msgs, drawn, wrote, c))
  }

  ghost predicate Mail<R>(ms: seq<Response>, drawn: Draws<R>, wrote: map<R, nat>, c: nat) {
    forall m :: m in ms ==> Solicited(drawn, wrote, c, m)
  }

  ghost predicate SolicitedStep<R>(s: Sys<R>, st: Step<R>) {
    st.OnConn? && st.ev.PeerSends? ==> Mail(st.ev.ms, s.drawn, s.wrote, st.c)
  }

  ghost predicate SolicitedRun<R>(s: Sys<R>, steps: seq<Step<R>>)
    requires Run(s, steps)
    decreases |steps|
  {
    steps == [] || (SolicitedStep(s, steps[0]) && SolicitedRun(Apply(s, steps[0]), steps[1..]))
  }

  /** While the loop serves, nothing reaches a request whose write has not begun. */
  ghost predicate Unasked<R>(s: Sys<R>, r: R) {
    s.HasOp(r) && r in s.pc && s.pc[r].BeforeWrite() && s.phase.Serving() ==> !s.OpOf(r).Touched()
  }

  ghost predicate PeerInv<R>(s: Sys<R>) {
    && MailInv(s.conns, s.drawn, s.wrote)
    && forall r {:trigger Unasked(s, r)} :: r in s.pc ==> Unasked(s, r)
  }

  // The messages under way.

  lemma KeepMailDraw<R>(conns: seq<Conn>, drawn: Draws<R>, wrote: map<R, nat>, counter: nat, owner: Option<R>)
    requires MailInv(conns, drawn, wrote) && counter + 1 < TWO_32 && NextId(counter) !in drawn
    ensures MailInv(conns, drawn[NextId(counter) := owner], wrote)
  {
    assert Drawable(NextId(counter));
    var drawn' := drawn[NextId(counter) := owner];
    forall c: nat | c < |conns| ensures MailAt(conns, drawn', wrote, c) {
      assert MailAt(conns, drawn, wrote, c);
    }
  }

  lemma KeepMailReader<R>(conns: seq<Conn>, drawn: Draws<R>, wrote: map<R, nat>, c: nat, rd: Reader, closes: nat)
    requires MailInv(conns, drawn, wrote) && c < |conns| && (rd.HasMsgs? ==> Mail(rd.msgs, drawn, wrote, c))
    ensures MailInv(conns[c := Conn(rd, closes)], drawn, wrote)
  {
    var conns' := conns[c := Conn(rd, closes)];
    forall k: nat | k < |conns| ensures MailAt(conns', drawn, wrote, k) {
      assert MailAt(conns, drawn, wrote, k);
    }
  }

  lemma KeepMail<R>(conns: seq<Conn>, conns': seq<Conn>, drawn: Draws<R>, wrote: map<R, nat>)
    requires MailInv(conns, drawn, wrote)
    requires forall c :: 0 <= c < |conns'| && conns'[c].reader.HasMsgs? ==>
               c < |conns| && conns[c].reader == conns'[c].reader
    ensures MailInv(conns', drawn, wrote)
  {
    forall c: nat | c < |conns'| ensures MailAt(conns', drawn, wrote, c) {
      assert c < |conns| ==> MailAt(conns, drawn, wrote, c);
    }
  }

  lemma KeepMailWrite<R>(conns: seq<Conn>, drawn: Draws<R>, wrote: map<R, nat>, r: R, w: nat)
    requires MailInv(conns, drawn, wrote) && r !in wrote
    ensures MailInv(conns, drawn, wrote[r := w])
  {
    var wrote' := wrote[r := w];
    forall k: nat | k < |conns| ensures MailAt(conns, drawn, wrote', k) {
      assert MailAt(conns, drawn, wrote, k);
    }
  }

  lemma MailByCaller<R>(s: Sys<R>, q: R, act: CallerAct)
    requires Inv(s) && CallerEnabled(s, q, act) && MailInv(s.conns, s.drawn, s.wrote)
    ensures var s' := CallerEffect(s, q, act); MailInv(s'.conns, s'.drawn, s'.wrote)
  {
    match act {
      case Draw =>
        NextIdIsNew(s.counter);
        KeepMailDraw(s.conns, s.drawn, s.wrote, s.counter, Some(q));
      case BeginWrite =>
        assert OpAt(s.loop.table.ops, s.pc, s.wrote, s.drawn, q);
        KeepMailWrite(s.conns, s.drawn, s.wrote, q, s.writeConn.value);
      case _ =>
        KeepMail(s.conns, CallerEffect(s, q, act).conns, s.drawn, s.wrote);
    }
  }

  lemma MailOnConn<R>(s: Sys<R>, c: nat, ev: ConnEvent)
    requires Inv(s) && ConnEnabled(s, c, ev) && MailInv(s.conns, s.drawn, s.wrote)
    requires SolicitedStep(s, OnConn(c, ev))
    ensures var s' := ConnEffect(s, c, ev); MailInv(s'.conns, s'.drawn, s'.wrote)
  {
    match ev {
      case PeerSends(ms) => KeepMailReader(s.conns, s.drawn, s.wrote, c, HasMsgs(ms), s.conns[c].closes);
      case _ => KeepMail(s.conns, ConnEffect(s, c, ev).conns, s.drawn, s.wrote);
    }
  }

  // What has not been asked is not answered.

  lemma {:induction false} NotAnswered<R>(t: Table<R>, ms: seq<Response>, r: R)
    requires t.Closed() && r in t.ops
    requires forall m :: m in ms ==> !WaitedFor(t, r, m.id)
    ensures RespondAll(t, ms).ops.Keys == t.ops.Keys && RespondAll(t, ms).ops[r] == t.ops[r]
    decreases |ms|
  {
    if ms != [] {
      assert FewerWaits(t, Respond(t, ms[0]), r);
      NotAnswered(Respond(t, ms[0]), ms[1..], r);
    }
  }

  lemma UnaskedRead<R>(s: Sys<R>, c: nat, r: R)
    requires Inv(s) && PeerInv(s) && ConnEnabled(s, c, DispatchMsgs) && r in s.pc
    ensures Unasked(DoDispatchMsgs(s, c), r)
  {
    var ms := s.conns[c].reader.msgs;
    assert Unasked(s, r) && MailAt(s.conns, s.drawn, s.wrote, c);
    assert OpAt(s.loop.table.ops, s.pc, s.wrote, s.drawn, r);
    if s.pc[r].BeforeWrite() {
      forall m | m in ms ensures !WaitedFor(s.loop.table, r, m.id) {
        if m.id in s.loop.table.respWait {
          assert PendingAt(s.loop.table, s.pc, m.id) && Solicited(s.drawn, s.wrote, c, m);
        }
      }
      NotAnswered(s.loop.table, ms, r);
    }
  }

  /** Cancelling spares a request whose write has not begun: it is the one in flight. */
  lemma UnaskedCancel<R>(s: Sys<R>, e: Error, r: R)
    requires Inv(s) && r in s.pc && s.pc[r].BeforeWrite()
    ensures CancelAll(s.loop.table, Some(e), s.loop.lastOp).ops[r] == s.OpOf(r)
  {
    if r in s.loop.table.respWait.Values {
      var id :| id in s.loop.table.respWait && s.loop.table.respWait[id] == r;
      assert PendingAt(s.loop.table, s.pc, id);
    }
  }

  lemma UnaskedMove<R>(s: Sys<R>, q: R, act: CallerAct, r: R)
    requires Inv(s) && PeerInv(s) && CallerEnabled(s, q, act) && Moves(act) && r in s.pc
    ensures Unasked(CallerEffect(s, q, act), r)
  {
    assert Unasked(s, r);
    if q != r {
      OthersStay(s, q, act, r);
    }
    LoopUntouched(s, q, act);
    assert CallerEffect(s, q, act).phase == s.phase;
  }

  lemma UnaskedReconnected<R>(s: Sys<R>, q: R, r: R)
    requires Inv(s) && PeerInv(s) && CallerEnabled(s, q, Reconnected) && r in s.pc
    ensures Unasked(DoReconnected(s, q), r)
  {
    assert Unasked(s, r);
    OffererIsLastOp(s, q);
    if q != r {
      OthersStay(s, q, Reconnected, r);
    }
    if s.pc[r].BeforeWrite() {
      UnaskedCancel(s, ErrClientReconnected, r);
    }
  }

  lemma UnaskedByCaller<R>(s: Sys<R>, q: R, act: CallerAct, r: R)
    requires Inv(s) && PeerInv(s) && CallerEnabled(s, q, act) && r in CallerEffect(s, q, act).pc
    ensures Unasked(CallerEffect(s, q, act), r)
  {
    if q != r {
      OthersStay(s, q, act, r);
    }
    if r in s.pc {
      assert Unasked(s, r);
      if Moves(act) {
        UnaskedMove(s, q, act, r);
      } else if act.Reconnected? {
        UnaskedReconnected(s, q, r);
      }
    }
  }

  lemma UnaskedOnConn<R>(s: Sys<R>, c: nat, ev: ConnEvent, r: R)
    requires Inv(s) && PeerInv(s) && ConnEnabled(s, c, ev) && r in s.pc
    ensures Unasked(ConnEffect(s, c, ev), r)
  {
    assert Unasked(s, r);
    NoCallerMoves(s, c, ev);
    match ev {
      case DispatchMsgs => UnaskedRead(s, c, r);
      case DispatchErr => if s.pc[r].BeforeWrite() { UnaskedCancel(s, s.conns[c].reader.err, r); }
      case _ =>
    }
  }

  lemma PeerStep<R>(s: Sys<R>, st: Step<R>)
    requires Inv(s) && PeerInv(s) && Enabled(s, st) && SolicitedStep(s, st)
    ensures CalmStep(s, st) && PeerInv(Apply(s, st))
  {
    assert st.ByCaller? && st.r in s.pc ==> Unasked(s, st.r);
    var s' := Apply(s, st);
    match st {
      case ByCaller(q, act) =>
        MailByCaller(s, q, act);
        forall r | r in s'.pc ensures Unasked(s', r) {
          UnaskedByCaller(s, q, act, r);
        }
      case OnConn(c, ev) =>
        MailOnConn(s, c, ev);
        NoCallerMoves(s, c, ev);
        forall r | r in s'.pc ensures Unasked(s', r) {
          UnaskedOnConn(s, c, ev, r);
        }
      case DrawUnused =>
        NextIdIsNew(s.counter);
        KeepMailDraw(s.conns, s.drawn, s.wrote, s.counter, None);
        UnaskedSame(s, s');
      case ReqSent => UnaskedSame(s, s');
      case Close => KeepMail(s.conns, s'.conns, s.drawn, s.wrote);
    }
  }

  lemma UnaskedSame<R>(s: Sys<R>, s': Sys<R>)
    requires forall r {:trigger Unasked(s, r)} :: r in s.pc ==> Unasked(s, r)
    requires s'.loop.table.ops == s.loop.table.ops && s'.pc == s.pc && s'.phase == s.phase
    ensures forall r {:trigger Unasked(s', r)} :: r in s'.pc ==> Unasked(s', r)
  {
    forall r | r in s'.pc ensures Unasked(s', r) {
      assert Unasked(s, r);
    }
  }

  lemma {:induction false} SolicitedFrom<R>(s: Sys<R>, steps: seq<Step<R>>)
    requires Inv(s) && PeerInv(s) && Run(s, steps) && SolicitedRun(s, steps)
    ensures Calm(s, steps)
    decreases |steps|
  {
    if steps != [] {
      PeerStep(s, steps[0]);
      KeepStep(s, steps[0]);
      SolicitedFrom(Apply(s, steps[0]), steps[1..]);
    }
  }

  /** With a solicited peer every run is calm, so that everything that holds of calm runs holds of it. */
  lemma SolicitedIsCalm<R>(steps: seq<Step<R>>)
    requires Run(Init(), steps) && SolicitedRun(Init(), steps)
    ensures CalmRun(Init(), steps)
  {
    InitInv<R>();
    assert MailInv(Init<R>().conns, Init<R>().drawn, Init<R>().wrote) by {
      assert MailAt(Init<R>().conns, Init<R>().drawn, Init<R>().wrote, 0);
    }
    SolicitedFrom(Init(), steps);
  }
}
