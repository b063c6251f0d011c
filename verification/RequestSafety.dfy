/** What keeps every caller's channel safe: an invariant over the pending-request table and the
    callers' progress, and the proof that each operation on the table keeps it. */
module RequestSafety {
  import opened Basics
  import opened Channels
  import opened Ids
  import opened RequestTable

  /** Where a caller is inside `CallContext`, `BatchCallContext`, `Subscribe` or `Notify`. */
  datatype Pc =
    | Building(want: nat)        // drawing ids
    | AtReqInit                  // in the select of send
    | Holding                    // handed over; about to look at writeConn
    | Offering(next: nat)        // in the select of reconnect, with a dialled connection
    | Writing                    // inside writeJSON
    | Wrote(err: Option<Error>)  // about to signal reqSent
    | Waiting(left: nat)         // in wait, with so many responses to go
    | TimingOut                  // context done; in the inner select of wait
    | Returned
  {
    /** Between the handover on reqInit and the signal on reqSent. */
    predicate InWrite() {
      Holding? || Offering? || Writing? || Wrote?
    }

    predicate BeforeWrite() {
      BeforeHandover() || Holding? || Offering?
    }

    predicate BeforeHandover() {
      Building? || AtReqInit?
    }

    function Want(): nat {
      if Building? then want else 0
    }
  }

  /** Which request each id was drawn for; None for the id that `Notify` draws and discards. */
  type Draws<R> = map<Id, Option<R>>

  /** One request: `wrote` says that its write has begun, `drawn` which request each id was drawn
      for (if any). */
  ghost predicate OpInv<R>(op: Op, r: R, p: Pc, wrote: bool, drawn: Draws<R>) {
    && op.resp.Healthy()
    && (if op.isSub then op.resp.sent == [] && |op.ids| + p.Want() <= 1 else |op.ids| + p.Want() <= op.resp.cap)
    && Distinct(op.ids)
    && (forall id :: id in op.ids ==> id in drawn && drawn[id] == Some(r))
    && AnswersTo(op.ids, op.resp.sent)
    && (!op.isSub && op.resp.closed ==> op.err.Some?)
    && (op.resp.closed ==> op.ids != [])
    && (!op.isSub && !p.Returned? ==> |op.ids| + p.Want() == op.resp.cap)
    && (p.BeforeWrite() ==> !wrote)
    && (p.BeforeHandover() ==> !op.Touched())
  }

  ghost predicate OpAt<R>(ops: map<R, Op>, pc: map<R, Pc>, wrote: map<R, nat>, drawn: Draws<R>, r: R) {
    r in ops && r in pc && OpInv(ops[r], r, pc[r], r in wrote, drawn)
  }

  ghost predicate OpsInv<R>(ops: map<R, Op>, pc: map<R, Pc>, wrote: map<R, nat>, drawn: Draws<R>) {
    forall r {:trigger OpAt(ops, pc, wrote, drawn, r)} :: r in ops ==> OpAt(ops, pc, wrote, drawn, r)
  }

  /** An id that is waited for belongs to its request, whose channel is open and has not had it. */
  ghost predicate PendingAt<R>(t: Table<R>, pc: map<R, Pc>, id: Id) {
    && id in t.respWait
    && var r := t.respWait[id];
    && r in t.ops && r in pc
    && id in t.ops[r].ids
    && !t.ops[r].resp.closed
    && !t.ops[r].Delivered(id)
    && !pc[r].BeforeHandover()
  }

  ghost predicate PendingsInv<R>(t: Table<R>, pc: map<R, Pc>) {
    forall id {:trigger PendingAt(t, pc, id)} :: id in t.respWait ==> PendingAt(t, pc, id)
  }

  ghost predicate RequestsInv<R>(t: Table<R>, pc: map<R, Pc>, wrote: map<R, nat>, drawn: Draws<R>) {
    && pc.Keys == t.ops.Keys
    && OpsInv(t.ops, pc, wrote, drawn)
    && PendingsInv(t, pc)
  }

  // Progress of one caller.

  lemma OpsUpdate<R>(ops: map<R, Op>, pc: map<R, Pc>, wrote: map<R, nat>, wrote': map<R, nat>, drawn: Draws<R>,
                     r: R, op: Op, p: Pc)
    requires pc.Keys == ops.Keys && OpsInv(ops, pc, wrote, drawn)
    requires wrote'.Keys - {r} == wrote.Keys - {r}
    requires OpInv(op, r, p, r in wrote', drawn)
    ensures OpsInv(ops[r := op], pc[r := p], wrote', drawn)
  {
    var ops', pc' := ops[r := op], pc[r := p];
    forall q | q in ops' ensures OpAt(ops', pc', wrote', drawn, q) {
      if q != r {
        assert OpAt(ops, pc, wrote, drawn, q);
        assert q in wrote' - {r} <==> q in wrote - {r};
      }
    }
  }

  lemma PendingsUpdate<R>(t: Table<R>, pc: map<R, Pc>, r: R, op: Op, p: Pc)
    requires pc.Keys == t.ops.Keys && PendingsInv(t, pc)
    requires r in t.ops ==>
               && op.ids == t.ops[r].ids && op.resp.sent == t.ops[r].resp.sent && op.resp.closed == t.ops[r].resp.closed
               && (p.BeforeHandover() ==> pc[r].BeforeHandover())
    ensures PendingsInv(t.(ops := t.ops[r := op]), pc[r := p])
  {
    var t', pc' := t.(ops := t.ops[r := op]), pc[r := p];
    forall id | id in t'.respWait ensures PendingAt(t', pc', id) {
      assert PendingAt(t, pc, id);
    }
  }

  /** A caller moves on; its request may have had responses received from it. */
  lemma KeepUpdate<R>(t: Table<R>, pc: map<R, Pc>, wrote: map<R, nat>, wrote': map<R, nat>, drawn: Draws<R>,
                      r: R, op: Op, p: Pc)
    requires RequestsInv(t, pc, wrote, drawn)
    requires wrote'.Keys - {r} == wrote.Keys - {r}
    requires OpInv(op, r, p, r in wrote', drawn)
    requires r in t.ops ==>
               && op.ids == t.ops[r].ids && op.resp.sent == t.ops[r].resp.sent && op.resp.closed == t.ops[r].resp.closed
               && (p.BeforeHandover() ==> pc[r].BeforeHandover())
    ensures RequestsInv(t.(ops := t.ops[r := op]), pc[r := p], wrote', drawn)
  {
    OpsUpdate(t.ops, pc, wrote, wrote', drawn, r, op, p);
    PendingsUpdate(t, pc, r, op, p);
  }

  lemma KeepPc<R>(t: Table<R>, pc: map<R, Pc>, wrote: map<R, nat>, drawn: Draws<R>, r: R, p: Pc)
    requires RequestsInv(t, pc, wrote, drawn) && r in t.ops
    requires p.BeforeWrite() ==> pc[r].BeforeWrite()
    requires p.Want() == 0 && (p.Returned? || (pc[r].Want() == 0 && !pc[r].Returned?))
    requires p.BeforeHandover() ==> pc[r].BeforeHandover()
    ensures RequestsInv(t, pc[r := p], wrote, drawn)
  {
    assert OpAt(t.ops, pc, wrote, drawn, r);
    OpPc(t.ops[r], r, pc[r], p, r in wrote, drawn);
    KeepUpdate(t, pc, wrote, wrote, drawn, r, t.ops[r], p);
    assert t.(ops := t.ops[r := t.ops[r]]) == t;
  }

  lemma OpPc<R>(op: Op, r: R, p: Pc, p': Pc, wrote: bool, drawn: Draws<R>)
    requires OpInv(op, r, p, wrote, drawn)
    requires (p'.BeforeWrite() ==> p.BeforeWrite()) && (p'.BeforeHandover() ==> p.BeforeHandover())
    requires p'.Want() == 0 && (p'.Returned? || (p.Want() == 0 && !p.Returned?))
    ensures OpInv(op, r, p', wrote, drawn)
  {
  }

  lemma OpReceive<R>(op: Op, r: R, p: Pc, p': Pc, wrote: bool, drawn: Draws<R>)
    requires OpInv(op, r, p, wrote, drawn) && op.resp.CanReceive()
    requires !p.BeforeWrite() && !p'.BeforeWrite() && (p.Returned? ==> p'.Returned?)
    ensures OpInv(op.(resp := op.resp.Receive()), r, p', wrote, drawn)
  {
  }

  lemma RequestsReceive<R>(t: Table<R>, pc: map<R, Pc>, wrote: map<R, nat>, drawn: Draws<R>, r: R, p: Pc)
    requires RequestsInv(t, pc, wrote, drawn) && r in t.ops && t.ops[r].resp.CanReceive()
    requires !pc[r].BeforeWrite() && !p.BeforeWrite() && (pc[r].Returned? ==> p.Returned?)
    ensures RequestsInv(t.(ops := t.ops[r := t.ops[r].(resp := t.ops[r].resp.Receive())]), pc[r := p], wrote, drawn)
  {
    assert OpAt(t.ops, pc, wrote, drawn, r);
    OpReceive(t.ops[r], r, pc[r], p, r in wrote, drawn);
    KeepUpdate(t, pc, wrote, wrote, drawn, r, t.ops[r].(resp := t.ops[r].resp.Receive()), p);
  }

  lemma KeepDraw<R>(t: Table<R>, pc: map<R, Pc>, wrote: map<R, nat>, drawn: Draws<R>, r: R, id: Id)
    requires RequestsInv(t, pc, wrote, drawn) && r in t.ops && pc[r].Building? && pc[r].want > 0
    requires id !in drawn
    ensures RequestsInv(t.(ops := t.ops[r := t.ops[r].(ids := t.ops[r].ids + [id])]), pc[r := Building(pc[r].want - 1)],
                        wrote, drawn[id := Some(r)])
  {
    var op, p := t.ops[r].(ids := t.ops[r].ids + [id]), Building(pc[r].want - 1);
    OpsWeaken(t.ops, pc, wrote, drawn, drawn[id := Some(r)]);
    assert OpAt(t.ops, pc, wrote, drawn, r);
    OpDraw(t.ops[r], r, pc[r].want, r in wrote, drawn, id);
    OpsUpdate(t.ops, pc, wrote, wrote, drawn[id := Some(r)], r, op, p);
    PendingsGrow(t, pc, r, op, p);
  }

  lemma OpDraw<R>(op: Op, r: R, want: nat, wrote: bool, drawn: Draws<R>, id: Id)
    requires OpInv(op, r, Building(want), wrote, drawn) && want > 0 && id !in drawn
    ensures OpInv(op.(ids := op.ids + [id]), r, Building(want - 1), wrote, drawn[id := Some(r)])
  {
  }

  lemma PendingsGrow<R>(t: Table<R>, pc: map<R, Pc>, r: R, op: Op, p: Pc)
    requires PendingsInv(t, pc) && r in t.ops && r in pc && pc[r].BeforeHandover()
    ensures PendingsInv(t.(ops := t.ops[r := op]), pc[r := p])
  {
    var t', pc' := t.(ops := t.ops[r := op]), pc[r := p];
    forall id | id in t'.respWait ensures PendingAt(t', pc', id) {
      assert PendingAt(t, pc, id);
    }
  }

  /** More ids drawn: nothing else changes. */
  lemma OpsWeaken<R>(ops: map<R, Op>, pc: map<R, Pc>, wrote: map<R, nat>, drawn: Draws<R>, drawn': Draws<R>)
    requires pc.Keys == ops.Keys && OpsInv(ops, pc, wrote, drawn)
    requires forall id :: id in drawn ==> id in drawn' && drawn'[id] == drawn[id]
    ensures OpsInv(ops, pc, wrote, drawn')
  {
    forall r | r in ops ensures OpAt(ops, pc, wrote, drawn', r) {
      assert OpAt(ops, pc, wrote, drawn, r);
    }
  }

  // Operations of the handler.

  lemma KeepAdd<R>(t: Table<R>, pc: map<R, Pc>, wrote: map<R, nat>, drawn: Draws<R>, r: R)
    requires RequestsInv(t, pc, wrote, drawn) && r in t.ops
    requires !t.ops[r].Touched() && !pc[r].BeforeHandover()
    ensures RequestsInv(Add(t, r), pc, wrote, drawn)
  {
    var t' := Add(t, r);
    assert OpAt(t.ops, pc, wrote, drawn, r);
    forall id | id in t'.respWait ensures PendingAt(t', pc, id) {
      assert id !in t.ops[r].ids ==> PendingAt(t, pc, id);
    }
  }

  /** Fewer ids waited for. */
  lemma KeepFewer<R>(t: Table<R>, pc: map<R, Pc>, wrote: map<R, nat>, drawn: Draws<R>, w: map<Id, R>)
    requires RequestsInv(t, pc, wrote, drawn)
    requires forall id :: id in w ==> id in t.respWait && w[id] == t.respWait[id]
    ensures RequestsInv(t.(respWait := w), pc, wrote, drawn)
  {
    var t' := t.(respWait := w);
    forall id | id in w ensures PendingAt(t', pc, id) {
      assert PendingAt(t, pc, id);
    }
  }

  /** Cancelling keeps every channel safe. */
  lemma KeepCancelAll<R>(t: Table<R>, pc: map<R, Pc>, wrote: map<R, nat>, drawn: Draws<R>,
                         e: Error, inflight: Option<R>)
    requires RequestsInv(t, pc, wrote, drawn)
    ensures RequestsInv(CancelAll(t, Some(e), inflight), pc, wrote, drawn)
  {
    forall r | r in t.ops && Cancels(t, inflight, r)
      ensures OpInv(t.ops[r].Cancelled(Some(e)), r, pc[r], r in wrote, drawn)
    {
      var id :| id in t.respWait && t.respWait[id] == r;
      assert PendingAt(t, pc, id) && OpAt(t.ops, pc, wrote, drawn, r);
    }
    OpsCancel(t, pc, wrote, drawn, e, inflight);
  }

  lemma OpsCancel<R>(t: Table<R>, pc: map<R, Pc>, wrote: map<R, nat>, drawn: Draws<R>,
                     e: Error, inflight: Option<R>)
    requires pc.Keys == t.ops.Keys && OpsInv(t.ops, pc, wrote, drawn)
    requires forall r :: r in t.ops && Cancels(t, inflight, r) ==>
               OpInv(t.ops[r].Cancelled(Some(e)), r, pc[r], r in wrote, drawn)
    ensures CancelAll(t, Some(e), inflight).ops.Keys == t.ops.Keys
    ensures OpsInv(CancelAll(t, Some(e), inflight).ops, pc, wrote, drawn)
  {
    var t' := CancelAll(t, Some(e), inflight);
    forall r | r in t'.ops ensures OpAt(t'.ops, pc, wrote, drawn, r) {
      assert OpAt(t.ops, pc, wrote, drawn, r);
    }
  }

  /** Delivering a response: there is room for it, because the ids delivered so far are different
      ids of the request and this one is not among them. */
  lemma KeepRespond<R>(t: Table<R>, pc: map<R, Pc>, wrote: map<R, nat>, drawn: Draws<R>, m: Response)
    requires RequestsInv(t, pc, wrote, drawn) && t.Closed()
    ensures RequestsInv(Respond(t, m), pc, wrote, drawn)
    ensures Respond(t, m).Closed()
  {
    if m.id in t.respWait {
      var r := t.respWait[m.id];
      assert PendingAt(t, pc, m.id) && OpAt(t.ops, pc, wrote, drawn, r);
      OpAnswered(t.ops[r], r, pc[r], r in wrote, drawn, m);
      OpsUpdate(t.ops, pc, wrote, wrote, drawn, r, t.ops[r].Answered(m), pc[r]);
      assert pc[r := pc[r]] == pc;
      PendingsRespond(t, pc, m);
    }
  }

  lemma {:induction false} KeepRespondAll<R>(t: Table<R>, pc: map<R, Pc>, wrote: map<R, nat>, drawn: Draws<R>,
                                             ms: seq<Response>)
    requires RequestsInv(t, pc, wrote, drawn) && t.Closed()
    ensures RequestsInv(RespondAll(t, ms), pc, wrote, drawn)
    ensures RespondAll(t, ms).Closed()
    decreases |ms|
  {
    if ms != [] {
      KeepRespond(t, pc, wrote, drawn, ms[0]);
      KeepRespondAll(Respond(t, ms[0]), pc, wrote, drawn, ms[1..]);
    }
  }

  lemma OpAnswered<R>(op: Op, r: R, p: Pc, wrote: bool, drawn: Draws<R>, m: Response)
    requires OpInv(op, r, p, wrote, drawn) && !p.BeforeHandover()
    requires m.id in op.ids && !op.resp.closed && !op.Delivered(m.id)
    ensures OpInv(op.Answered(m), r, p, wrote, drawn)
  {
    if !op.isSub {
      var sent := seq(|op.resp.sent|, i requires 0 <= i < |op.resp.sent| => op.resp.sent[i].id) + [m.id];
      assert Distinct(sent);
      DistinctBound(sent, op.ids);
    }
  }

  /** An answer to one id does not disturb the other ids that are waited for, of the same request or
      of others; a subscription request has no other id. */
  lemma PendingsRespond<R>(t: Table<R>, pc: map<R, Pc>, m: Response)
    requires t.Closed() && m.id in t.respWait && PendingsInv(t, pc)
    requires t.ops[t.respWait[m.id]].isSub ==> |t.ops[t.respWait[m.id]].ids| <= 1
    ensures PendingsInv(Respond(t, m), pc)
  {
    var t' := Respond(t, m);
    forall id | id in t'.respWait ensures PendingAt(t', pc, id) {
      assert PendingAt(t, pc, id) && PendingAt(t, pc, m.id);
    }
  }

  // ---------------------------------------------------------------------------------------------
  // The write lock.

  /** The loop stops listening on `reqInit` exactly while a request is in flight.  At most one caller
      is between its handover and its signal, and the slot of `reqSent` is filled only after. */
  ghost predicate LockInv<R>(lockFree: bool, lastOp: Option<R>, reqSent: Chan<Option<Error>>, pc: map<R, Pc>) {
    && (lockFree <==> lastOp.None?)
    && reqSent.Healthy() && !reqSent.closed && reqSent.cap == 1
    && (forall r :: r in pc && pc[r].InWrite() ==> lastOp == Some(r) && reqSent.taken == |reqSent.sent|)
    && (lastOp.None? ==> reqSent.taken == |reqSent.sent|)
    && (lastOp.Some? ==> lastOp.value in pc && !pc[lastOp.value].BeforeHandover())
    && (reqSent.taken < |reqSent.sent| && reqSent.sent[reqSent.taken].Some? ==> pc[lastOp.value].Returned?)
    && (lastOp.Some? && reqSent.taken == |reqSent.sent| ==> pc[lastOp.value].InWrite())
  }

  lemma LockPc<R>(lockFree: bool, lastOp: Option<R>, reqSent: Chan<Option<Error>>, pc: map<R, Pc>, r: R, p: Pc)
    requires LockInv(lockFree, lastOp, reqSent, pc)
    requires p.InWrite() <==> r in pc && pc[r].InWrite()
    requires r in pc ==> (p.BeforeHandover() ==> pc[r].BeforeHandover()) && (pc[r].Returned? ==> p.Returned?)
    ensures LockInv(lockFree, lastOp, reqSent, pc[r := p])
  {
  }

  lemma LockTaken<R>(reqSent: Chan<Option<Error>>, pc: map<R, Pc>, r: R)
    requires LockInv(true, None, reqSent, pc)
    ensures LockInv(false, Some(r), reqSent, pc[r := Holding])
  {
  }

  /** The signal finds its slot empty. */
  lemma LockSignalled<R>(lockFree: bool, lastOp: Option<R>, reqSent: Chan<Option<Error>>, pc: map<R, Pc>, r: R,
                         e: Option<Error>, p: Pc)
    requires LockInv(lockFree, lastOp, reqSent, pc) && r in pc && pc[r].InWrite() && !p.InWrite() && !p.BeforeHandover()
    requires e.Some? ==> p.Returned?
    ensures LockInv(lockFree, lastOp, reqSent.Send(e), pc[r := p])
  {
  }

  lemma LockReleased<R>(lockFree: bool, lastOp: Option<R>, reqSent: Chan<Option<Error>>, pc: map<R, Pc>)
    requires LockInv(lockFree, lastOp, reqSent, pc) && reqSent.taken < |reqSent.sent|
    ensures lastOp.Some?
    ensures LockInv(true, None, reqSent.Receive(), pc)
  {
  }
}
