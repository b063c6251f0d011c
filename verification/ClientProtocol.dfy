/** The whole client as a step machine: any number of callers, the reader of every connection, the
    dispatch loop, the peer, timeouts, reconnection and close, interleaved arbitrarily. */
module ClientProtocol {
  import opened Basics
  import opened Channels
  import opened Ids
  import opened RequestTable
  import opened Dispatch
  import opened RequestSafety
  import opened Connections

  datatype Sys<R> = Sys(
    loop: Loop<R>, conn: nat, phase: Phase, counter: nat, drawn: Draws<R>,
    pc: map<R, Pc>, wrote: map<R, nat>, conns: seq<Conn>,
    writeConn: Option<nat>, reqSent: Chan<Option<Error>>, crashed: bool)
  {
    ghost predicate HasOp(r: R) {
      r in loop.table.ops
    }

    ghost function OpOf(r: R): Op
      requires HasOp(r)
    {
      loop.table.ops[r]
    }

    ghost predicate At(r: R, p: Pc) {
      r in pc && pc[r] == p
    }

    /** All references lead somewhere. */
    ghost predicate WellFormed() {
      && loop.Closed()
      && pc.Keys == loop.table.ops.Keys
      && conn < |conns|
    }

    /** The connection with which a caller stands in the select of `reconnect`, if one does. */
    ghost function Offer(): Option<nat> {
      if loop.lastOp.Some? && loop.lastOp.value in pc && pc[loop.lastOp.value].Offering?
      then Some(pc[loop.lastOp.value].next) else None
    }

    ghost function Net(): Links {
      Links(conns, conn, phase, loop.reading, Offer(), writeConn)
    }
  }

  ghost function Init<R>(): Sys<R> {
    Sys(Loop(Table(map[], map[]), None, true, true), 0, Looping, 0, map[],
        map[], map[], [Conn(Reading, 0)], Some(0), Make(1), false)
  }

  /** What a caller can do next. */
  datatype CallerAct =
    | Create(n: nat, sub: bool)
    | Draw
    | Submit
    | GiveUp
    | Handover
    | DialFail(e: Error)
    | Dial
    | Reconnected
    | DialRefused
    | BeginWrite
    | FinishWrite(we: Option<Error>)
    | SignalSent
    | Receive
    | ContextDone
    | Timeout
    | AbandonTimeout

  /** What can happen next on a connection.  The peer may send any responses at any time. */
  datatype ConnEvent =
    | PeerSends(ms: seq<Response>)
    | PeerFails(e: Error)
    | DispatchMsgs
    | DispatchErr
    | DrainMsg
    | DrainErr

  datatype Step<R> = ByCaller(r: R, act: CallerAct) | OnConn(c: nat, ev: ConnEvent) | DrawUnused | ReqSent | Close

  /** A new connection arrives before any answer or cancellation has reached the request in flight. */
  ghost predicate CalmStep<R>(s: Sys<R>, st: Step<R>) {
    st.ByCaller? && st.act.Reconnected? && s.HasOp(st.r) ==> !s.OpOf(st.r).Touched()
  }

  ghost predicate CallerEnabled<R>(s: Sys<R>, r: R, act: CallerAct) {
    match act
    case Create(n, sub) => !s.HasOp(r) && r !in s.pc && (sub ==> n == 1)
    case Draw => s.HasOp(r) && r in s.pc && s.pc[r].Building? && s.pc[r].want > 0 && s.counter + 1 < TWO_32
    case Submit => s.At(r, Building(0))
    case GiveUp => r in s.pc && s.pc[r].BeforeHandover()
    case Handover => s.At(r, AtReqInit) && s.phase.Looping? && s.loop.lockFree
    case DialFail(e) => s.At(r, Holding) && s.writeConn.None?
    case Dial => s.At(r, Holding) && s.writeConn.None?
    case Reconnected => r in s.pc && s.pc[r].Offering? && s.phase.Looping?
    case DialRefused => r in s.pc && s.pc[r].Offering? && s.phase.Quit?
    case BeginWrite => s.At(r, Holding) && s.writeConn.Some?
    case FinishWrite(e) => s.At(r, Writing)
    case SignalSent => r in s.pc && s.pc[r].Wrote?
    case Receive => r in s.pc && s.pc[r].Waiting? && s.pc[r].left > 0 && s.HasOp(r) && s.OpOf(r).resp.CanReceive()
    case ContextDone => r in s.pc && s.pc[r].Waiting? && s.pc[r].left > 0
    case Timeout => s.At(r, TimingOut) && s.phase.Looping?
    case AbandonTimeout => s.At(r, TimingOut) && !s.phase.Serving()
  }

  ghost predicate ConnEnabled<R>(s: Sys<R>, c: nat, ev: ConnEvent) {
    && c < |s.conns|
    && var rd := s.conns[c].reader;
    match ev
    case PeerSends(ms) => rd.Reading?
    case PeerFails(e) => rd.Reading?
    case DispatchMsgs => rd.HasMsgs? && s.phase.Looping?
    case DispatchErr => rd.HasErr? && s.phase.Looping?
    case DrainMsg => rd.HasMsgs? && (s.phase.Swapping? || s.phase.Quitting?)
    case DrainErr => rd.HasErr? && (s.phase.Swapping? || s.phase.Quitting?)
  }

  ghost predicate Enabled<R>(s: Sys<R>, st: Step<R>) {
    match st
    case ByCaller(r, act) => CallerEnabled(s, r, act)
    case OnConn(c, ev) => ConnEnabled(s, c, ev)
    case DrawUnused => s.counter + 1 < TWO_32
    case ReqSent => s.reqSent.taken < |s.reqSent.sent| && s.phase.Looping?
    case Close => s.phase.Looping?
  }

  ghost function SetPc<R>(s: Sys<R>, r: R, p: Pc): Sys<R> {
    s.(pc := s.pc[r := p])
  }

  ghost function SetOp<R>(s: Sys<R>, r: R, op: Op): Sys<R> {
    s.(loop := s.loop.(table := s.loop.table.(ops := s.loop.table.ops[r := op])))
  }

  /** A live reader takes over on connection `c`, behind a fresh handler. */
  ghost function SwapIn<R>(s: Sys<R>, c: nat): Sys<R>
    requires s.WellFormed()
  {
    if s.loop.lastOp.None? || c >= |s.conns| then s.(crashed := true)
    else s.(conns := SetReader(s.conns, c, Reading), loop := OnSwapIn(s.loop), conn := c, phase := Looping)
  }

  ghost function Apply<R>(s: Sys<R>, st: Step<R>): Sys<R>
    requires Enabled(s, st)
  {
    if !s.WellFormed() then s.(crashed := true) else Effect(s, st)
  }

  ghost function Effect<R>(s: Sys<R>, st: Step<R>): Sys<R>
    requires Enabled(s, st) && s.WellFormed()
  {
    match st
    case ByCaller(r, act) => CallerEffect(s, r, act)
    case OnConn(c, ev) => ConnEffect(s, c, ev)
    case DrawUnused => s.(counter := s.counter + 1, drawn := s.drawn[NextId(s.counter) := None])
    case ReqSent => DoReqSent(s)
    case Close => DoClose(s)
  }

  ghost function CallerEffect<R>(s: Sys<R>, r: R, act: CallerAct): Sys<R>
    requires CallerEnabled(s, r, act) && s.WellFormed()
  {
    match act
    case Create(n, sub) => DoCreate(s, r, n, sub)
    case Draw => DoDraw(s, r)
    case Submit => SetPc(s, r, AtReqInit)
    case GiveUp => SetPc(s, r, Returned)
    case Handover => DoHandover(s, r)
    case DialFail(e) => SetPc(s, r, Wrote(Some(e)))
    case Dial => DoDial(s, r)
    case Reconnected => DoReconnected(s, r)
    case DialRefused => DoDialRefused(s, r)
    case BeginWrite => DoBeginWrite(s, r)
    case FinishWrite(e) => DoFinishWrite(s, r, e)
    case SignalSent => DoSignalSent(s, r)
    case Receive => DoReceive(s, r)
    case ContextDone => SetPc(s, r, TimingOut)
    case Timeout => DoTimeout(s, r)
    case AbandonTimeout => SetPc(s, r, Returned)
  }

  ghost function ConnEffect<R>(s: Sys<R>, c: nat, ev: ConnEvent): Sys<R>
    requires ConnEnabled(s, c, ev) && s.WellFormed()
  {
    match ev
    case PeerSends(ms) => s.(conns := SetReader(s.conns, c, HasMsgs(ms)))
    case PeerFails(e) => s.(conns := SetReader(s.conns, c, HasErr(e)))
    case DispatchMsgs => DoDispatchMsgs(s, c)
    case DispatchErr => DoDispatchErr(s, c)
    case DrainMsg => s.(conns := SetReader(s.conns, c, Reading))
    case DrainErr => DoDrainErr(s, c)
  }

  ghost function DoCreate<R>(s: Sys<R>, r: R, n: nat, sub: bool): Sys<R> {
    SetPc(SetOp(s, r, Op([], None, Make(if sub then 0 else n), sub)), r, Building(n))
  }

  ghost function DoDraw<R>(s: Sys<R>, r: R): Sys<R>
    requires CallerEnabled(s, r, Draw)
  {
    var id := NextId(s.counter);
    SetPc(SetOp(s, r, s.OpOf(r).(ids := s.OpOf(r).ids + [id])), r, Building(s.pc[r].want - 1))
      .(counter := s.counter + 1, drawn := s.drawn[id := Some(r)])
  }

  ghost function DoHandover<R>(s: Sys<R>, r: R): Sys<R>
    requires s.HasOp(r)
  {
    SetPc(s, r, Holding).(loop := OnReqInit(s.loop, r))
  }

  ghost function DoDial<R>(s: Sys<R>, r: R): Sys<R> {
    SetPc(s, r, Offering(|s.conns|)).(conns := s.conns + [Conn(NotStarted, 0)])
  }

  ghost function DoReconnected<R>(s: Sys<R>, r: R): Sys<R>
    requires s.WellFormed() && CallerEnabled(s, r, Reconnected)
  {
    var c := s.pc[r].next;
    var s1 := SetPc(s, r, Holding).(writeConn := Some(c));
    if s.loop.reading then s1.(conns := CloseConn(s.conns, s.conn), loop := OnSwapOut(s.loop), phase := Swapping(c))
    else SwapIn(s1, c)
  }

  ghost function DoDialRefused<R>(s: Sys<R>, r: R): Sys<R>
    requires s.WellFormed() && CallerEnabled(s, r, DialRefused)
  {
    var c := s.pc[r].next;
    if c >= |s.conns| then s.(crashed := true)
    else SetPc(s, r, Wrote(Some(ErrClientQuit))).(conns := CloseConn(s.conns, c))
  }

  ghost function DoBeginWrite<R>(s: Sys<R>, r: R): Sys<R>
    requires CallerEnabled(s, r, BeginWrite)
  {
    SetPc(s, r, Writing).(wrote := s.wrote[r := s.writeConn.value])
  }

  ghost function DoFinishWrite<R>(s: Sys<R>, r: R, e: Option<Error>): Sys<R> {
    SetPc(s, r, Wrote(e)).(writeConn := if e.Some? then None else s.writeConn)
  }

  ghost function DoTimeout<R>(s: Sys<R>, r: R): Sys<R>
    requires s.HasOp(r)
  {
    SetPc(s, r, Returned).(loop := OnTimeout(s.loop, r))
  }

  ghost function DoSignalSent<R>(s: Sys<R>, r: R): Sys<R>
    requires s.WellFormed() && CallerEnabled(s, r, SignalSent)
  {
    var n := |s.OpOf(r).ids|;
    SetPc(s, r, if s.pc[r].err.Some? || n == 0 then Returned else Waiting(n))
      .(reqSent := s.reqSent.Send(s.pc[r].err))
  }

  ghost function DoReceive<R>(s: Sys<R>, r: R): Sys<R>
    requires CallerEnabled(s, r, Receive)
  {
    var ret := WaitResult(s.OpOf(r));
    var left := if ret.1.Some? then 0 else s.pc[r].left - 1;
    SetPc(SetOp(s, r, s.OpOf(r).(resp := s.OpOf(r).resp.Receive())), r, if left == 0 then Returned else Waiting(left))
  }

  ghost function DoDispatchMsgs<R>(s: Sys<R>, c: nat): Sys<R>
    requires s.WellFormed() && ConnEnabled(s, c, DispatchMsgs)
  {
    s.(conns := SetReader(s.conns, c, Reading), loop := OnRead(s.loop, s.conns[c].reader.msgs))
  }

  ghost function DoDispatchErr<R>(s: Sys<R>, c: nat): Sys<R>
    requires s.WellFormed() && ConnEnabled(s, c, DispatchErr)
  {
    s.(conns := CloseConn(SetReader(s.conns, c, Exited), s.conn), loop := OnReadErr(s.loop, s.conns[c].reader.err))
  }

  ghost function DoDrainErr<R>(s: Sys<R>, c: nat): Sys<R>
    requires s.WellFormed() && ConnEnabled(s, c, DrainErr)
  {
    var s1 := s.(conns := SetReader(s.conns, c, Exited));
    if s.phase.Swapping? then SwapIn(s1, s.phase.next) else s1.(phase := Quit)
  }

  ghost function DoReqSent<R>(s: Sys<R>): Sys<R>
    requires s.WellFormed() && Enabled(s, ReqSent)
  {
    if s.loop.lastOp.None? then s.(crashed := true)
    else s.(loop := OnReqSent(s.loop, s.reqSent.sent[s.reqSent.taken]), reqSent := s.reqSent.Receive())
  }

  ghost function DoClose<R>(s: Sys<R>): Sys<R>
    requires s.WellFormed()
  {
    if s.loop.reading
    then s.(loop := OnQuit(s.loop), conns := CloseConn(s.conns, s.conn), phase := Quitting)
    else s.(loop := OnQuit(s.loop), phase := Quit)
  }

  /** What one `wait` returns when the channel of `op` is ready: the response, if any, and `op.err`. */
  function WaitResult(op: Op): (Option<Response>, Option<Error>)
    requires op.resp.CanReceive()
  {
    (if op.resp.taken < |op.resp.sent| then Some(op.resp.sent[op.resp.taken]) else None, op.err)
  }

  // ---------------------------------------------------------------------------------------------
  // The invariant

  ghost predicate DrawnInv<R>(counter: nat, drawn: Draws<R>) {
    && counter < TWO_32
    && (forall id :: id in drawn <==> exists k: nat :: k < counter && id == NextId(k))
  }

  /** While an old reader is drained, nobody is waited for, nothing has reached the in-flight request,
      and it is written to the new connection only. */
  ghost predicate SwapInv<R>(loop: Loop<R>, phase: Phase, wrote: map<R, nat>) {
    phase.Swapping? ==>
      && loop.table.respWait == map[]
      && loop.lastOp.Some? && loop.lastOp.value in loop.table.ops
      && !loop.table.ops[loop.lastOp.value].Touched()
      && (loop.lastOp.value in wrote ==> wrote[loop.lastOp.value] == phase.next)
  }

  ghost predicate Inv<R>(s: Sys<R>) {
    && !s.crashed
    && s.WellFormed()
    && s.wrote.Keys <= s.pc.Keys
    && DrawnInv(s.counter, s.drawn)
    && RequestsInv(s.loop.table, s.pc, s.wrote, s.drawn)
    && LockInv(s.loop.lockFree, s.loop.lastOp, s.reqSent, s.pc)
    && LinksInv(s.Net())
    && SwapInv(s.loop, s.phase, s.wrote)
  }

  lemma InitInv<R>()
    ensures Inv(Init<R>())
  {
  }

  /** A caller moves on without touching anything shared. */
  lemma KeepMove<R>(s: Sys<R>, r: R, p: Pc)
    requires Inv(s) && r in s.pc
    requires (p.BeforeWrite() ==> s.pc[r].BeforeWrite()) && (p.BeforeHandover() ==> s.pc[r].BeforeHandover())
    requires (p.InWrite() <==> s.pc[r].InWrite()) && p.Want() == 0 && !s.pc[r].Offering? && !p.Offering?
    requires (s.pc[r].Returned? ==> p.Returned?) && (p.Returned? || s.pc[r].Want() == 0)
    ensures Inv(SetPc(s, r, p))
  {
    KeepPc(s.loop.table, s.pc, s.wrote, s.drawn, r, p);
    LockPc(s.loop.lockFree, s.loop.lastOp, s.reqSent, s.pc, r, p);
    assert SetPc(s, r, p).Net() == s.Net();
  }

  lemma KeepCreate<R>(s: Sys<R>, r: R, n: nat, sub: bool)
    requires Inv(s) && !s.HasOp(r) && (sub ==> n == 1)
    ensures Inv(DoCreate(s, r, n, sub))
  {
    KeepUpdate(s.loop.table, s.pc, s.wrote, s.wrote, s.drawn, r,
               Op([], None, Make(if sub then 0 else n), sub), Building(n));
    LockPc(s.loop.lockFree, s.loop.lastOp, s.reqSent, s.pc, r, Building(n));
    assert DoCreate(s, r, n, sub).Net() == s.Net();
  }

  lemma DrawKeepsRequests<R>(s: Sys<R>, r: R)
    requires s.WellFormed() && CallerEnabled(s, r, Draw) && DrawnInv(s.counter, s.drawn)
    requires RequestsInv(s.loop.table, s.pc, s.wrote, s.drawn)
    requires LockInv(s.loop.lockFree, s.loop.lastOp, s.reqSent, s.pc)
    ensures var s' := DoDraw(s, r);
            && s'.WellFormed() && s'.Net() == s.Net()
            && RequestsInv(s'.loop.table, s'.pc, s'.wrote, s'.drawn)
            && LockInv(s'.loop.lockFree, s'.loop.lastOp, s'.reqSent, s'.pc)
  {
    NextIdIsNew(s.counter);
    KeepDraw(s.loop.table, s.pc, s.wrote, s.drawn, r, NextId(s.counter));
    LockPc(s.loop.lockFree, s.loop.lastOp, s.reqSent, s.pc, r, Building(s.pc[r].want - 1));
  }

  lemma KeepDrawId<R>(s: Sys<R>, r: R)
    requires Inv(s) && CallerEnabled(s, r, Draw)
    ensures Inv(DoDraw(s, r))
  {
    DrawKeepsRequests(s, r);
    NextIdIsNew(s.counter);
    KeepDrawn(s.counter, s.drawn, Some(r));
  }

  lemma KeepDrawUnused<R>(s: Sys<R>)
    requires Inv(s) && s.counter + 1 < TWO_32
    ensures Inv(s.(counter := s.counter + 1, drawn := s.drawn[NextId(s.counter) := None]))
  {
    NextIdIsNew(s.counter);
    OpsWeaken(s.loop.table.ops, s.pc, s.wrote, s.drawn, s.drawn[NextId(s.counter) := None]);
    KeepDrawn(s.counter, s.drawn, None);
  }

  lemma KeepDrawn<R>(counter: nat, drawn: Draws<R>, owner: Option<R>)
    requires DrawnInv(counter, drawn) && counter + 1 < TWO_32
    ensures DrawnInv(counter + 1, drawn[NextId(counter) := owner])
  {
  }

  lemma KeepHandover<R>(s: Sys<R>, r: R)
    requires Inv(s) && s.At(r, AtReqInit) && s.phase.Looping? && s.loop.lockFree
    ensures Inv(DoHandover(s, r))
  {
    assert OpAt(s.loop.table.ops, s.pc, s.wrote, s.drawn, r);
    KeepPc(s.loop.table, s.pc, s.wrote, s.drawn, r, Holding);
    KeepAdd(s.loop.table, s.pc[r := Holding], s.wrote, s.drawn, r);
    LockTaken(s.reqSent, s.pc, r);
    assert DoHandover(s, r).Net() == s.Net();
  }

  lemma KeepDial<R>(s: Sys<R>, r: R)
    requires Inv(s) && s.At(r, Holding)
    ensures Inv(DoDial(s, r))
  {
    KeepPc(s.loop.table, s.pc, s.wrote, s.drawn, r, Offering(|s.conns|));
    LockPc(s.loop.lockFree, s.loop.lastOp, s.reqSent, s.pc, r, Offering(|s.conns|));
    KeepDialled(s.Net());
  }

  /** The request on whose behalf a connection is handed over is the one in flight. */
  lemma OffererIsLastOp<R>(s: Sys<R>, r: R)
    requires Inv(s) && r in s.pc && s.pc[r].Offering?
    ensures s.loop.lastOp == Some(r) && s.Offer() == Some(s.pc[r].next)
    ensures !s.phase.Swapping? || s.phase.next != s.pc[r].next
  {
  }

  lemma KeepDialRefused<R>(s: Sys<R>, r: R)
    requires Inv(s) && r in s.pc && s.pc[r].Offering? && s.phase.Quit?
    ensures Inv(DoDialRefused(s, r))
  {
    OffererIsLastOp(s, r);
    KeepPc(s.loop.table, s.pc, s.wrote, s.drawn, r, Wrote(Some(ErrClientQuit)));
    LockPc(s.loop.lockFree, s.loop.lastOp, s.reqSent, s.pc, r, Wrote(Some(ErrClientQuit)));
    KeepRefused(s.Net());
  }

  lemma KeepReconnectedLive<R>(s: Sys<R>, r: R)
    requires Inv(s) && r in s.pc && s.pc[r].Offering? && s.phase.Looping? && s.loop.reading
    requires !s.OpOf(r).Touched()
    ensures Inv(DoReconnected(s, r))
  {
    OffererIsLastOp(s, r);
    assert OpAt(s.loop.table.ops, s.pc, s.wrote, s.drawn, r);
    KeepPc(s.loop.table, s.pc, s.wrote, s.drawn, r, Holding);
    KeepCancelAll(s.loop.table, s.pc[r := Holding], s.wrote, s.drawn, ErrClientReconnected, Some(r));
    LockPc(s.loop.lockFree, s.loop.lastOp, s.reqSent, s.pc, r, Holding);
    KeepSwappedOut(s.Net());
  }

  lemma KeepReconnectedIdle<R>(s: Sys<R>, r: R)
    requires Inv(s) && r in s.pc && s.pc[r].Offering? && s.phase.Looping? && !s.loop.reading
    requires !s.OpOf(r).Touched()
    ensures Inv(DoReconnected(s, r))
  {
    OffererIsLastOp(s, r);
    assert OpAt(s.loop.table.ops, s.pc, s.wrote, s.drawn, r);
    KeepPc(s.loop.table, s.pc, s.wrote, s.drawn, r, Holding);
    KeepFewer(s.loop.table, s.pc[r := Holding], s.wrote, s.drawn, map[]);
    KeepAdd(s.loop.table.(respWait := map[]), s.pc[r := Holding], s.wrote, s.drawn, r);
    LockPc(s.loop.lockFree, s.loop.lastOp, s.reqSent, s.pc, r, Holding);
    KeepSwappedIn(s.Net());
  }

  lemma KeepBeginWrite<R>(s: Sys<R>, r: R)
    requires Inv(s) && s.At(r, Holding) && s.writeConn.Some?
    ensures Inv(DoBeginWrite(s, r))
  {
    var wrote' := s.wrote[r := s.writeConn.value];
    assert OpAt(s.loop.table.ops, s.pc, s.wrote, s.drawn, r);
    KeepUpdate(s.loop.table, s.pc, s.wrote, wrote', s.drawn, r, s.OpOf(r), Writing);
    assert s.loop.table.(ops := s.loop.table.ops[r := s.OpOf(r)]) == s.loop.table;
    LockPc(s.loop.lockFree, s.loop.lastOp, s.reqSent, s.pc, r, Writing);
    assert DoBeginWrite(s, r).Net() == s.Net();
  }

  lemma KeepFinishWrite<R>(s: Sys<R>, r: R, e: Option<Error>)
    requires Inv(s) && s.At(r, Writing)
    ensures Inv(DoFinishWrite(s, r, e))
  {
    KeepMove(s, r, Wrote(e));
    KeepWriteFailed(SetPc(s, r, Wrote(e)).Net());
  }

  lemma KeepSignalSent<R>(s: Sys<R>, r: R)
    requires Inv(s) && r in s.pc && s.pc[r].Wrote?
    ensures Inv(DoSignalSent(s, r))
  {
    var n := |s.OpOf(r).ids|;
    var p := if s.pc[r].err.Some? || n == 0 then Returned else Waiting(n);
    KeepPc(s.loop.table, s.pc, s.wrote, s.drawn, r, p);
    LockSignalled(s.loop.lockFree, s.loop.lastOp, s.reqSent, s.pc, r, s.pc[r].err, p);
    assert DoSignalSent(s, r).Net() == s.Net();
  }

  lemma KeepReceive<R>(s: Sys<R>, r: R)
    requires Inv(s) && CallerEnabled(s, r, Receive)
    ensures Inv(DoReceive(s, r))
  {
    var ret := WaitResult(s.OpOf(r));
    var left := if ret.1.Some? then 0 else s.pc[r].left - 1;
    KeepReceived(s, r, if left == 0 then Returned else Waiting(left));
  }

  lemma KeepReceived<R>(s: Sys<R>, r: R, p: Pc)
    requires Inv(s) && r in s.pc && s.pc[r].Waiting? && s.OpOf(r).resp.CanReceive() && (p.Waiting? || p.Returned?)
    ensures Inv(SetPc(SetOp(s, r, s.OpOf(r).(resp := s.OpOf(r).resp.Receive())), r, p))
  {
    var s' := SetPc(SetOp(s, r, s.OpOf(r).(resp := s.OpOf(r).resp.Receive())), r, p);
    RequestsReceive(s.loop.table, s.pc, s.wrote, s.drawn, r, p);
    LockPc(s.loop.lockFree, s.loop.lastOp, s.reqSent, s.pc, r, p);
    assert s'.Net() == s.Net();
  }

  lemma KeepTimeout<R>(s: Sys<R>, r: R)
    requires Inv(s) && s.At(r, TimingOut) && s.phase.Looping?
    ensures Inv(DoTimeout(s, r))
  {
    KeepMove(s, r, Returned);
    KeepFewer(s.loop.table, s.pc[r := Returned], s.wrote, s.drawn, OnTimeout(s.loop, r).table.respWait);
  }

  lemma KeepReads<R>(s: Sys<R>, c: nat, rd: Reader)
    requires Inv(s) && c < |s.conns| && s.conns[c].reader.Live() && rd.Live()
    ensures Inv(s.(conns := SetReader(s.conns, c, rd)))
  {
    LiveIsCurrent(s.Net(), c);
    KeepReader(s.Net(), rd);
  }

  lemma KeepDispatchMsgs<R>(s: Sys<R>, c: nat)
    requires Inv(s) && c < |s.conns| && s.conns[c].reader.HasMsgs? && s.phase.Looping?
    ensures Inv(DoDispatchMsgs(s, c))
  {
    var ms := s.conns[c].reader.msgs;
    KeepReads(s, c, Reading);
    KeepRespondAll(s.loop.table, s.pc, s.wrote, s.drawn, ms);
  }

  lemma KeepDispatchErr<R>(s: Sys<R>, c: nat)
    requires Inv(s) && c < |s.conns| && s.conns[c].reader.HasErr? && s.phase.Looping?
    ensures Inv(DoDispatchErr(s, c))
  {
    LiveIsCurrent(s.Net(), c);
    KeepCancelAll(s.loop.table, s.pc, s.wrote, s.drawn, s.conns[c].reader.err, s.loop.lastOp);
    KeepReadFailed(s.Net());
  }

  lemma KeepDrainErrSwap<R>(s: Sys<R>, c: nat)
    requires Inv(s) && c < |s.conns| && s.conns[c].reader.HasErr? && s.phase.Swapping?
    ensures Inv(DoDrainErr(s, c))
  {
    LiveIsCurrent(s.Net(), c);
    var r := s.loop.lastOp.value;
    KeepFewer(s.loop.table, s.pc, s.wrote, s.drawn, map[]);
    KeepAdd(s.loop.table.(respWait := map[]), s.pc, s.wrote, s.drawn, r);
    KeepDrained(s.Net());
  }

  lemma KeepDrainErrQuit<R>(s: Sys<R>, c: nat)
    requires Inv(s) && c < |s.conns| && s.conns[c].reader.HasErr? && s.phase.Quitting?
    ensures Inv(DoDrainErr(s, c))
  {
    LiveIsCurrent(s.Net(), c);
    KeepQuit(s.Net());
  }

  lemma KeepReqSent<R>(s: Sys<R>)
    requires Inv(s) && Enabled(s, ReqSent)
    ensures Inv(DoReqSent(s))
  {
    LockReleased(s.loop.lockFree, s.loop.lastOp, s.reqSent, s.pc);
    KeepFewer(s.loop.table, s.pc, s.wrote, s.drawn, DoReqSent(s).loop.table.respWait);
    assert DoReqSent(s).Net() == s.Net();
  }

  lemma KeepClose<R>(s: Sys<R>)
    requires Inv(s) && s.phase.Looping?
    ensures Inv(DoClose(s))
  {
    if s.loop.reading {
      KeepCancelAll(s.loop.table, s.pc, s.wrote, s.drawn, ErrClientQuit, None);
      KeepClosing(s.Net());
    } else {
      KeepClosed(s.Net());
    }
  }

  lemma KeepCaller<R>(s: Sys<R>, r: R, act: CallerAct)
    requires Inv(s) && CallerEnabled(s, r, act) && CalmStep(s, ByCaller(r, act))
    ensures Inv(CallerEffect(s, r, act))
  {
    match act
    case Create(n, sub) => KeepCreate(s, r, n, sub);
    case Draw => KeepDrawId(s, r);
    case Submit => KeepMove(s, r, AtReqInit);
    case GiveUp => KeepMove(s, r, Returned);
    case Handover => KeepHandover(s, r);
    case DialFail(e) => KeepMove(s, r, Wrote(Some(e)));
    case Dial => KeepDial(s, r);
    case Reconnected => if s.loop.reading { KeepReconnectedLive(s, r); } else { KeepReconnectedIdle(s, r); }
    case DialRefused => KeepDialRefused(s, r);
    case BeginWrite => KeepBeginWrite(s, r);
    case FinishWrite(e) => KeepFinishWrite(s, r, e);
    case SignalSent => KeepSignalSent(s, r);
    case Receive => KeepReceive(s, r);
    case ContextDone => KeepMove(s, r, TimingOut);
    case Timeout => KeepTimeout(s, r);
    case AbandonTimeout => KeepMove(s, r, Returned);
  }

  lemma KeepConn<R>(s: Sys<R>, c: nat, ev: ConnEvent)
    requires Inv(s) && ConnEnabled(s, c, ev)
    ensures Inv(ConnEffect(s, c, ev))
  {
    match ev
    case PeerSends(ms) => KeepReads(s, c, HasMsgs(ms));
    case PeerFails(e) => KeepReads(s, c, HasErr(e));
    case DispatchMsgs => KeepDispatchMsgs(s, c);
    case DispatchErr => KeepDispatchErr(s, c);
    case DrainMsg => KeepReads(s, c, Reading);
    case DrainErr => if s.phase.Swapping? { KeepDrainErrSwap(s, c); } else { KeepDrainErrQuit(s, c); }
  }

  lemma KeepStep<R>(s: Sys<R>, st: Step<R>)
    requires Inv(s) && Enabled(s, st) && CalmStep(s, st)
    ensures Inv(Apply(s, st))
  {
    match st
    case ByCaller(r, act) => KeepCaller(s, r, act);
    case OnConn(c, ev) => KeepConn(s, c, ev);
    case DrawUnused => KeepDrawUnused(s);
    case ReqSent => KeepReqSent(s);
    case Close => KeepClose(s);
  }

  // ---------------------------------------------------------------------------------------------
  // Runs

  ghost predicate Run<R>(s: Sys<R>, steps: seq<Step<R>>)
    decreases |steps|
  {
    steps == [] || (Enabled(s, steps[0]) && Run(Apply(s, steps[0]), steps[1..]))
  }

  ghost function Exec<R>(s: Sys<R>, steps: seq<Step<R>>): Sys<R>
    requires Run(s, steps)
    decreases |steps|
  {
    if steps == [] then s else Exec(Apply(s, steps[0]), steps[1..])
  }

  /** No reconnection in the course of the steps finds that the request in flight has been touched.
      With a solicited peer this is always so (`SolicitedPeers`); where it is not so, something can go
      wrong (`Disturbances`). */
  ghost predicate Calm<R>(s: Sys<R>, steps: seq<Step<R>>)
    requires Run(s, steps)
    decreases |steps|
  {
    steps == [] || (CalmStep(s, steps[0]) && Calm(Apply(s, steps[0]), steps[1..]))
  }

  ghost predicate CalmRun<R>(s: Sys<R>, steps: seq<Step<R>>) {
    Run(s, steps) && Calm(s, steps)
  }

  lemma {:induction false} RunKeepsInv<R>(s: Sys<R>, steps: seq<Step<R>>)
    requires Inv(s) && CalmRun(s, steps)
    ensures Inv(Exec(s, steps))
    decreases |steps|
  {
    if steps != [] {
      KeepStep(s, steps[0]);
      RunKeepsInv(Apply(s, steps[0]), steps[1..]);
    }
  }
}
