/** The handler of a connection: pending requests, the client's subscriptions and the server's. */
module Handlers {
  import opened Basics
  import opened Channels
  import opened Ids
  import opened RequestTable
  import opened ClientSubscriptions
  import opened Notifiers
  import ServerSubscriptions

  class RequestOp {
    const ids: seq<Id>
    const sub: ClientSubscription?
    var err: Option<Error>
    var resp: Chan<Response>

    constructor (ids: seq<Id>, cap: nat, sub: ClientSubscription?)
      ensures this.ids == ids && this.sub == sub
      ensures State() == Op(ids, None, Make(cap), sub != null)
    {
      this.ids, this.sub, err, resp := ids, sub, None, Make(cap);
    }

    ghost function State(): Op
      reads this
    {
      Op(ids, err, resp, sub != null)
    }

    method Cancel(e: Error)
      modifies this`err, this`resp
      ensures State() == old(State()).Cancelled(Some(e))
    {
      err := Some(e);
      resp := resp.Close();
    }

    /** The response to a subscription request: its error is recorded, or the subscription started. */
    method Accept(m: Response, ghost subs: set<ClientSubscription>)
      requires sub != null && sub in subs
      modifies this`err, sub`subid, sub`starts
      ensures err == SubscribeError(m)
      ensures Starts(subs) == if err.None? then old(Starts(subs))[sub := (m.subid.value, old(sub.starts) + 1)]
                              else old(Starts(subs))
      ensures if err.None? then sub.subid == m.subid.value && sub.starts == old(sub.starts) + 1
              else sub.subid == old(sub.subid) && sub.starts == old(sub.starts)
    {
      err := SubscribeError(m);
      if err.None? {
        sub.subid := m.subid.value;
        sub.starts := sub.starts + 1;
      }
    }
  }

  /** The response to a subscription request that the server has accepted. */
  predicate Establishes(op: RequestOp, m: Response) {
    op.sub != null && SubscribeError(m).None?
  }

  class Handler {
    var respWait: map<Id, RequestOp>
    var clientSubs: map<string, ClientSubscription>
    var serverSubs: map<string, Subscription>

    constructor ()
      ensures respWait == map[] && clientSubs == map[] && serverSubs == map[]
    {
      respWait, clientSubs, serverSubs := map[], map[], map[];
    }

    /** The request table over the requests `all`. */
    ghost function View(all: set<RequestOp>): Table<RequestOp>
      reads this`respWait, all
    {
      Table(map op | op in all :: op.State(), respWait)
    }

    ghost predicate Valid(all: set<RequestOp>)
      reads this
    {
      && respWait.Values <= all
      && (forall id :: id in serverSubs ==> serverSubs[id].id == id)
    }

    method AddRequestOp(op: RequestOp, ghost all: set<RequestOp>)
      requires Valid(all) && op in all
      modifies this`respWait
      ensures Valid(all) && View(all) == Add(old(View(all)), op)
      ensures forall id :: id in op.ids ==> id in respWait && respWait[id] == op
      ensures respWait - Elements(op.ids) == old(respWait) - Elements(op.ids)
    {
      var i := 0;
      while i < |op.ids|
        invariant 0 <= i <= |op.ids|
        invariant respWait == old(respWait) + map id | id in op.ids[..i] :: op
      {
        respWait := respWait[op.ids[i] := op];
        assert op.ids[..i + 1] == op.ids[..i] + [op.ids[i]];
        i := i + 1;
      }
      assert op.ids[..i] == op.ids;
      forall q | q in respWait.Values ensures q in all {
        var id :| id in respWait && respWait[id] == q;
        assert id in old(respWait) ==> old(respWait)[id] in old(respWait).Values;
      }
    }

    method RemoveRequestOp(op: RequestOp, ghost all: set<RequestOp>)
      requires Valid(all) && op in all
      modifies this`respWait
      ensures Valid(all) && View(all) == Remove(old(View(all)), op)
      ensures respWait == map id | id in old(respWait) && id !in op.ids :: old(respWait)[id]
    {
      var i := 0;
      while i < |op.ids|
        invariant 0 <= i <= |op.ids|
        invariant respWait == old(respWait) - Elements(op.ids[..i])
      {
        respWait := respWait - {op.ids[i]};
        assert op.ids[..i + 1] == op.ids[..i] + [op.ids[i]];
        i := i + 1;
      }
      assert op.ids[..i] == op.ids;
    }

    /** The request is as it was before, or cancelled. */
    static ghost predicate ClosedIf(op: RequestOp, done: bool, before: Table<RequestOp>, e: Error)
      reads op
    {
      op in before.ops && op.State() == if done then before.ops[op].Cancelled(Some(e)) else before.ops[op]
    }

    /** While pending requests are cancelled: those in `didClose` are done with. */
    ghost predicate Cancelling(before: Table<RequestOp>, all: set<RequestOp>, e: Error, inflight: RequestOp?,
                               didClose: set<RequestOp>)
      reads this`respWait, all
    {
      && before.ops.Keys == all
      && Shrinking(before.respWait, respWait, inflight, didClose)
      && forall op :: op in all ==> ClosedIf(op, op in didClose && op != inflight, before, e)
    }

    /** When the table is empty, everything that was pending has been cancelled. */
    lemma AllCancelled(before: Table<RequestOp>, all: set<RequestOp>, e: Error, inflight: RequestOp?,
                       didClose: set<RequestOp>)
      requires Cancelling(before, all, e, inflight, didClose) && respWait == map[]
      ensures View(all) == CancelAll(before, Some(e), AsOption(inflight))
    {
    }

    /** The first loop of `cancelAllRequests`. */
    method CancelPending(e: Error, inflight: RequestOp?, ghost all: set<RequestOp>)
      requires Valid(all)
      modifies this`respWait, all`err, all`resp
      ensures Valid(all)
      ensures View(all) == CancelAll(old(View(all)), Some(e), AsOption(inflight))
      ensures respWait == map[]
    {
      ghost var before := View(all);
      var didClose: set<RequestOp> := {};
      if inflight != null {
        didClose := {inflight};
      }
      while respWait != map[]
        invariant Cancelling(before, all, e, inflight, didClose)
        decreases respWait.Keys
      {
        didClose := CancelOne(e, inflight, didClose, before, all);
      }
      AllCancelled(before, all, e, inflight, didClose);
    }

    method CancelOne(e: Error, inflight: RequestOp?, didClose: set<RequestOp>,
                     ghost before: Table<RequestOp>, ghost all: set<RequestOp>) returns (didClose': set<RequestOp>)
      requires respWait != map[] && before.respWait.Values <= all && Cancelling(before, all, e, inflight, didClose)
      modifies this`respWait, all`err, all`resp
      ensures Cancelling(before, all, e, inflight, didClose')
      ensures respWait.Keys < old(respWait.Keys)
    {
      var id :| id in respWait;
      var op := respWait[id];
      ShrinksOn(before.respWait, respWait, inflight, didClose, id);
      respWait := respWait - {id};
      didClose' := didClose;
      if op !in didClose {
        op.Cancel(e);
        didClose' := didClose + {op};
      }
      forall q | q in all && q != op ensures ClosedIf(q, q in didClose' && q != inflight, before, e) {
        assert old(ClosedIf(q, q in didClose && q != inflight, before, e));
      }
    }

    /** The second loop of `cancelAllRequests`. */
    method EndClientSubs(e: Error)
      modifies this`clientSubs, clientSubs.Values`quitDone, clientSubs.Values`quit
      modifies clientSubs.Values`err, clientSubs.Values`asked
      ensures clientSubs == map[]
      ensures forall s :: s in old(clientSubs).Values ==>
                s.State() == Quitted(old(s.State()), false, Some(e))
    {
      ghost var before := clientSubs;
      ghost var ended: set<ClientSubscription> := {};
      while clientSubs != map[]
        invariant forall id :: id in clientSubs ==> id in before && clientSubs[id] == before[id]
        invariant forall id :: id in before ==> id in clientSubs || before[id] in ended
        invariant forall s :: s in before.Values ==>
                    s.State() == (if s in ended then Quitted(old(s.State()), false, Some(e)) else old(s.State()))
        decreases clientSubs.Keys
      {
        var id :| id in clientSubs;
        var sub := clientSubs[id];
        clientSubs := clientSubs - {id};
        assert sub == before[id] && sub in before.Values;
        QuittedTwice(old(sub.State()), e);
        sub.QuitWithError(false, Some(e));
        ended := ended + {sub};
      }
      forall s | s in before.Values ensures s in ended {
        var id :| id in before && before[id] == s;
      }
    }

    method CancelAllRequests(e: Error, inflight: RequestOp?, ghost all: set<RequestOp>)
      requires Valid(all)
      modifies this`respWait, this`clientSubs, all`err, all`resp, clientSubs.Values
      ensures Valid(all)
      ensures View(all) == CancelAll(old(View(all)), Some(e), AsOption(inflight))
      ensures clientSubs == map[]
      ensures forall s :: s in old(clientSubs).Values ==>
                s.State() == Quitted(old(s.State()), false, Some(e))
    {
      CancelPending(e, inflight, all);
      EndClientSubs(e);
    }

    /** The channel of a call has been sent the response, as it is. */
    twostate predicate Forwarded(op: RequestOp, m: Response)
      reads op
    {
      && op.err == old(op.err)
      && (!old(op.resp.closed) && |old(op.resp.sent)| < old(op.resp.taken) + old(op.resp.cap) ==>
            op.resp == old(op.resp).(sent := old(op.resp.sent) + [m]))
    }

    /** The caller of `Subscribe` has been unblocked, with the server's error or that of reading the id; if
        there is none, one forwarder has been started for the subscription, which stands under its id. */
    twostate predicate Unblocked(op: RequestOp, m: Response)
      requires op.sub != null
      reads this, op, op.sub
    {
      && (!old(op.resp.closed) ==> op.resp == old(op.resp).(closed := true))
      && (m.error.Some? ==> op.err == m.error)
      && (m.error.None? ==> (op.err.None? <==> m.subid.Some?))
      && (op.err.None? ==>
            && op.sub.subid == m.subid.value && op.sub.starts == old(op.sub.starts) + 1
            && clientSubs == old(clientSubs)[m.subid.value := op.sub])
      && (op.err.Some? ==>
            op.sub.subid == old(op.sub.subid) && op.sub.starts == old(op.sub.starts) && clientSubs == old(clientSubs))
    }

    /** Forwards the response to its request; for a subscription request, starts the subscription if
        the server has accepted it, and unblocks the caller in either case. */
    method HandleResponse(m: Response, ghost all: set<RequestOp>)
      requires Valid(all)
      modifies this`respWait, this`clientSubs, all`err, all`resp, SubsOf(all)`subid, SubsOf(all)`starts
      ensures Valid(all)
      ensures View(all) == Respond(old(View(all)), m)
      ensures clientSubs == SubscribedOne(old(respWait), old(clientSubs), m)
      ensures Starts(SubsOf(all)) == StartedOne(old(respWait), old(Starts(SubsOf(all))), m)
      ensures m.id in old(respWait) ==>
                if old(respWait)[m.id].sub == null then Forwarded(old(respWait)[m.id], m)
                else Unblocked(old(respWait)[m.id], m)
    {
      if m.id !in respWait {
        return;
      }
      ghost var before := View(all);
      var op := respWait[m.id];
      respWait := respWait - {m.id};
      if op.sub == null {
        op.resp := op.resp.Send(m);
        Responded(op, before, m, all);
        return;
      }
      HandleSubscribed(op, m, before, all);
    }

    /** For subscription requests: the caller is unblocked in either case. */
    method HandleSubscribed(op: RequestOp, m: Response, ghost before: Table<RequestOp>, ghost all: set<RequestOp>)
      requires Pending(op, m, before, all) && op.sub != null
      requires forall q :: q in all ==> q.State() == before.ops[q]
      modifies this`clientSubs, op`err, op`resp, op.sub`subid, op.sub`starts
      ensures View(all) == Respond(before, m)
      ensures clientSubs == SubscribedOne(before.respWait, old(clientSubs), m)
      ensures Starts(SubsOf(all)) == StartedOne(before.respWait, old(Starts(SubsOf(all))), m)
      ensures Unblocked(op, m)
    {
      Establish(op, m, before.respWait, SubsOf(all));
      op.resp := op.resp.Close();
      Responded(op, before, m, all);
    }

    /** Starts and enters the subscription, if the server has accepted it. */
    method Establish(op: RequestOp, m: Response, ghost wait: map<Id, RequestOp>, ghost subs: set<ClientSubscription>)
      requires op.sub != null && op.sub in subs && m.id in wait && wait[m.id] == op
      modifies this`clientSubs, op`err, op.sub`subid, op.sub`starts
      ensures op.err == SubscribeError(m)
      ensures clientSubs == if Establishes(op, m) then old(clientSubs)[m.subid.value := op.sub] else old(clientSubs)
      ensures Starts(subs) == StartedOne(wait, old(Starts(subs)), m)
      ensures if Establishes(op, m) then op.sub.subid == m.subid.value && op.sub.starts == old(op.sub.starts) + 1
              else op.sub.subid == old(op.sub.subid) && op.sub.starts == old(op.sub.starts)
    {
      op.Accept(m, subs);
      if op.err.None? {
        clientSubs := clientSubs[m.subid.value := op.sub];
      }
    }

    /** `op` waited for `m` in `before`, and has just been taken off the table. */
    ghost predicate Pending(op: RequestOp, m: Response, before: Table<RequestOp>, all: set<RequestOp>)
      reads this`respWait
    {
      && before.Closed() && before.ops.Keys == all && op in all
      && m.id in before.respWait && before.respWait[m.id] == op
      && respWait == before.respWait - {m.id}
    }

    lemma Responded(op: RequestOp, before: Table<RequestOp>, m: Response, all: set<RequestOp>)
      requires Pending(op, m, before, all)
      requires op.State() == before.ops[op].Answered(m)
      requires forall q :: q in all && q != op ==> q.State() == before.ops[q]
      ensures View(all) == Respond(before, m)
    {
    }

    // The server's side, with `subs` the subscriptions there are.

    ghost function Book(subs: set<Subscription>): ServerSubscriptions.Book<Subscription>
      reads this`serverSubs, subs
    {
      ServerSubscriptions.Book(serverSubs, map s | s in subs :: s.err)
    }

    /** Registers the subscriptions that the call's notifiers have created. */
    method AddSubscriptions(nn: seq<Notifier<string>>, ghost subs: set<Subscription>)
      requires forall id :: id in serverSubs ==> serverSubs[id].id == id
      modifies this`serverSubs, nn
      ensures forall k :: 0 <= k < |nn| ==> nn[k].callReturned && nn[k].sub == old(nn[k].sub)
      ensures Book(subs) == ServerSubscriptions.Register(old(Book(subs)), Created(old(Taken(nn))))
      ensures forall id :: id in serverSubs ==> serverSubs[id].id == id
    {
      ghost var subs := Taken(nn);
      var i := 0;
      while i < |nn|
        invariant 0 <= i <= |nn|
        invariant forall k :: 0 <= k < |nn| ==> nn[k].sub == subs[k]
        invariant forall k :: 0 <= k < i ==> nn[k].callReturned
        invariant serverSubs == old(serverSubs) + Created(subs[..i])
      {
        var sub := nn[i].TakeSubscription();
        CreatedNext(old(serverSubs), subs, i);
        if sub != null {
          serverSubs := serverSubs[sub.id := sub];
        }
        i := i + 1;
      }
      assert subs[..i] == subs;
    }

    /** The callback of `*_unsubscribe`. */
    method Unsubscribe(id: string, ghost subs: set<Subscription>) returns (ok: bool, err: Option<Error>)
      requires serverSubs.Values <= subs
      modifies this`serverSubs, if id in serverSubs then {serverSubs[id]} else {}
      ensures ok <==> id in old(serverSubs)
      ensures err == if ok then None else Some(ErrSubscriptionNotFound)
      ensures Book(subs) == ServerSubscriptions.Drop(old(Book(subs)), id)
    {
      if id !in serverSubs {
        return false, Some(ErrSubscriptionNotFound);
      }
      var s := serverSubs[id];
      s.err := s.err.Close();
      serverSubs := serverSubs - {id};
      return true, None;
    }

    /** The loop that tells every subscription that the handler is closed, and forgets it. */
    method TellSubscriptions(e: Error)
      requires forall id :: id in serverSubs ==> serverSubs[id].id == id
      modifies this`serverSubs, serverSubs.Values`err
      ensures serverSubs == map[]
      ensures forall s :: s in old(serverSubs.Values) ==> s.err == Told(old(s.err), e)
      ensures forall s :: s in old(serverSubs.Values) && old(s.err) == Make(1) ==>
                s.err == Make(1).(sent := [Some(e)], closed := true)
    {
      ghost var before := serverSubs;
      ghost var told: set<Subscription> := {};
      while serverSubs != map[]
        invariant forall id :: id in serverSubs ==>
                    id in before && serverSubs[id] == before[id] && serverSubs[id] !in told
        invariant forall id :: id in before ==> id in serverSubs || before[id] in told
        invariant forall s :: s in before.Values ==> s.err == if s in told then Told(old(s.err), e) else old(s.err)
        decreases serverSubs.Keys
      {
        var id :| id in serverSubs;
        var s := serverSubs[id];
        assert s == before[id] && s in before.Values && s.id == id;
        s.Tell(e);
        serverSubs := serverSubs - {id};
        told := told + {s};
      }
    }

    method CancelServerSubscriptions(e: Error, ghost subs: set<Subscription>)
      requires forall id :: id in serverSubs ==> serverSubs[id].id == id
      modifies this`serverSubs, serverSubs.Values`err
      ensures Book(subs) == ServerSubscriptions.TellAll(old(Book(subs)), e)
    {
      ghost var told := serverSubs.Values;
      TellSubscriptions(e);
      assert forall s :: s in subs ==> s.err == if s in told then Told(old(s.err), e) else old(s.err);
    }

    /** Cancels everything except the request in flight (and waits for the calls being served). */
    method Close(e: Error, inflight: RequestOp?, ghost all: set<RequestOp>, ghost subs: set<Subscription>)
      requires Valid(all)
      modifies this`respWait, this`clientSubs, this`serverSubs, all`err, all`resp
      modifies clientSubs.Values, serverSubs.Values`err
      ensures Valid(all)
      ensures View(all) == CancelAll(old(View(all)), Some(e), AsOption(inflight))
      ensures clientSubs == map[]
      ensures forall s :: s in old(clientSubs).Values ==> s.State() == Quitted(old(s.State()), false, Some(e))
      ensures Book(subs) == ServerSubscriptions.TellAll(old(Book(subs)), e)
    {
      CancelAllRequests(e, inflight, all);
      ghost var t := View(all);
      assert Book(subs) == old(Book(subs));
      CancelServerSubscriptions(e, subs);
      assert forall op :: op in all ==> op.State() == t.ops[op];
    }

    /** A batch of responses, in order. */
    method HandleResponses(ms: seq<Response>, ghost all: set<RequestOp>)
      requires Valid(all)
      modifies this`respWait, this`clientSubs, all`err, all`resp, SubsOf(all)`subid, SubsOf(all)`starts
      ensures Valid(all)
      ensures Starts(SubsOf(all)) == Started(old(respWait), old(Starts(SubsOf(all))), ms)
      ensures View(all) == RespondAll(old(View(all)), ms)
      ensures clientSubs == Subscribed(old(respWait), old(clientSubs), ms)
    {
      var i := 0;
      while i < |ms|
        invariant 0 <= i <= |ms|
        invariant Valid(all)
        invariant RespondAll(View(all), ms[i..]) == RespondAll(old(View(all)), ms)
        invariant Subscribed(respWait, clientSubs, ms[i..]) == Subscribed(old(respWait), old(clientSubs), ms)
        invariant Started(respWait, Starts(SubsOf(all)), ms[i..]) ==
                  Started(old(respWait), old(Starts(SubsOf(all))), ms)
      {
        assert ms[i..][1..] == ms[i + 1..];
        ghost var wait := respWait;
        HandleResponse(ms[i], all);
        assert respWait == wait - {ms[i].id};
        i := i + 1;
      }
    }
  }

  ghost function SubsOf(all: set<RequestOp>): set<ClientSubscription> {
    set op | op in all && op.sub != null :: op.sub as ClientSubscription
  }

  /** The id that each subscription has on the server, and how many forwarders have been started. */
  ghost function Starts(subs: set<ClientSubscription>): map<ClientSubscription, (string, nat)>
    reads subs`subid, subs`starts
  {
    map s | s in subs :: (s.subid, s.starts)
  }

  /** The same after a response, and after several: only a subscription that a response establishes is
      concerned. */
  ghost function StartedOne(wait: map<Id, RequestOp>, v: map<ClientSubscription, (string, nat)>, m: Response):
    map<ClientSubscription, (string, nat)>
  {
    if m.id in wait && Establishes(wait[m.id], m) && wait[m.id].sub in v
    then v[wait[m.id].sub := (m.subid.value, v[wait[m.id].sub].1 + 1)] else v
  }

  ghost function Started(wait: map<Id, RequestOp>, v: map<ClientSubscription, (string, nat)>, ms: seq<Response>):
    map<ClientSubscription, (string, nat)>
  {
    if ms == [] then v else Started(wait - {ms[0].id}, StartedOne(wait, v, ms[0]), ms[1..])
  }

  /** The client's subscriptions after a response, and after several. */
  ghost function SubscribedOne(wait: map<Id, RequestOp>, subs: map<string, ClientSubscription>, m: Response):
    map<string, ClientSubscription>
  {
    if m.id in wait && Establishes(wait[m.id], m) then subs[m.subid.value := wait[m.id].sub] else subs
  }

  ghost function Subscribed(wait: map<Id, RequestOp>, subs: map<string, ClientSubscription>, ms: seq<Response>):
    map<string, ClientSubscription>
  {
    if ms == [] then subs else Subscribed(wait - {ms[0].id}, SubscribedOne(wait, subs, ms[0]), ms[1..])
  }

  /** The subscriptions of some notifiers. */
  ghost function Taken(nn: seq<Notifier<string>>): (ss: seq<Subscription?>)
    reads nn
    ensures |ss| == |nn| && forall i :: 0 <= i < |nn| ==> ss[i] == nn[i].sub
  {
    seq(|nn|, i requires 0 <= i < |nn| reads nn => nn[i].sub)
  }

  /** By id, those that exist; of two with the same id the later one stands. */
  ghost function Created(ss: seq<Subscription?>): (m: map<string, Subscription>)
    ensures forall id :: id in m ==> m[id].id == id
  {
    if ss == [] then map[]
    else
      var last := ss[|ss| - 1];
      var m := Created(ss[..|ss| - 1]);
      if last == null then m else m[last.id := last]
  }

  /** For the step machine: what `AddSubscriptions` registers for the notifiers of one call is what the
      machine registers for that call. */
  lemma CreatedAgrees(h: ServerSubscriptions.Subs<Subscription>, p: nat, ss: seq<Subscription?>)
    requires ServerSubscriptions.WellFormed(h)
    requires forall s :: s in h.errs ==> h.idOf[s] == s.id
    requires forall s: Subscription :: s in ss <==> s in h.errs && h.owner[s] == p
    ensures Created(ss) == ServerSubscriptions.CreatedIn(h, p)
  {
    CreatedHas(ss);
    var created := ServerSubscriptions.CreatedIn(h, p);
    forall id | id in Created(ss) ensures id in created && created[id] == Created(ss)[id] {
      ServerSubscriptions.CreatedById(h, p, Created(ss)[id]);
    }
    forall id | id in ServerSubscriptions.CreatedIn(h, p) ensures id in Created(ss) {
      assert ServerSubscriptions.CreatedIn(h, p)[id] in ss;
    }
  }

  lemma {:induction false} CreatedHas(ss: seq<Subscription?>)
    ensures forall id :: id in Created(ss) ==> Created(ss)[id] in ss
    ensures forall s: Subscription :: s in ss ==> s.id in Created(ss)
  {
    if ss != [] {
      CreatedHas(ss[..|ss| - 1]);
      assert ss == ss[..|ss| - 1] + [ss[|ss| - 1]];
    }
  }

  lemma CreatedNext(m: map<string, Subscription>, ss: seq<Subscription?>, i: nat)
    requires i < |ss|
    ensures m + Created(ss[..i + 1]) ==
            if ss[i] == null then m + Created(ss[..i]) else (m + Created(ss[..i]))[ss[i].id := ss[i]]
  {
    assert ss[..i + 1][..i] == ss[..i];
  }

  /** Part of the table is gone, and every request of that part is done with. */
  ghost predicate Shrinking(before: map<Id, RequestOp>, wait: map<Id, RequestOp>, inflight: RequestOp?,
                            didClose: set<RequestOp>)
  {
    && (forall id :: id in wait ==> id in before && wait[id] == before[id])
    && (forall id :: id in before ==> id in wait || before[id] in didClose)
    && (inflight != null ==> inflight in didClose)
    && (forall op :: op in didClose ==> op == inflight || op in before.Values)
  }

  lemma ShrinksOn(before: map<Id, RequestOp>, wait: map<Id, RequestOp>, inflight: RequestOp?,
                  didClose: set<RequestOp>, id: Id)
    requires Shrinking(before, wait, inflight, didClose) && id in wait
    ensures Shrinking(before, wait - {id}, inflight, didClose + {wait[id]})
    ensures wait[id] in didClose ==> Shrinking(before, wait - {id}, inflight, didClose)
    ensures wait[id] in before.Values
  {
  }

  lemma QuittedTwice(s: SubState, e: Error)
    ensures Quitted(Quitted(s, false, Some(e)), false, Some(e)) == Quitted(s, false, Some(e))
  {
  }

  function AsOption(op: RequestOp?): Option<RequestOp> {
    if op == null then None else Some(op)
  }
}
