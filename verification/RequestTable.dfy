/** The pending-request table of a handler and what its operations do to it, as functions on values.
    Requests are identified by references of any type `R`; the class `Handlers.Handler` works on
    `RequestOp` objects and is proved to do exactly what these functions say. */
module RequestTable {
  import opened Basics
  import opened Channels
  import opened Ids

  /** A method response: an RPC error, or a result of which all that matters here is its text and
      the string it decodes to (the subscription id, for subscription requests). */
  datatype Response = Response(id: Id, error: Option<Error>, result: string, subid: Option<string>)

  /** A request operation: `resp` is where its caller waits. */
  datatype Op = Op(ids: seq<Id>, err: Option<Error>, resp: Chan<Response>, isSub: bool)
  {
    /** Closed with an error, as cancelling does. */
    function Cancelled(e: Option<Error>): Op {
      this.(err := e, resp := resp.Close())
    }

    /** The response has arrived: forwarded to the caller, or, for a subscription request, signalled
        by closing the channel with the error (if any) recorded first. */
    function Answered(m: Response): Op {
      if !isSub then this.(resp := resp.Send(m))
      else this.(err := SubscribeError(m), resp := resp.Close())
    }

    /** Some answer or cancellation has reached the caller's channel. */
    predicate Touched() {
      resp.sent != [] || resp.closed
    }

    /** The response carrying `id` has been forwarded. */
    ghost predicate Delivered(id: Id) {
      exists k :: 0 <= k < |resp.sent| && resp.sent[k].id == id
    }
  }

  /** Each of the responses carries one of the ids, and no two carry the same. */
  ghost predicate AnswersTo(ids: seq<Id>, ms: seq<Response>) {
    && (forall i, j :: 0 <= i < j < |ms| ==> ms[i].id != ms[j].id)
    && (forall i :: 0 <= i < |ms| ==> ms[i].id in ids)
  }

  function SubscribeError(m: Response): Option<Error> {
    if m.error.Some? then m.error
    else if m.subid.Some? then None
    else Some(ErrOther("json: cannot unmarshal subscription id"))
  }

  datatype Table<R> = Table(ops: map<R, Op>, respWait: map<Id, R>)
  {
    /** Every id that is waited for leads to a request. */
    ghost predicate Closed() {
      forall id :: id in respWait ==> respWait[id] in ops
    }
  }

  ghost function Add<R>(t: Table<R>, r: R): Table<R>
    requires r in t.ops
  {
    t.(respWait := t.respWait + map id | id in t.ops[r].ids :: r)
  }

  ghost function Remove<R>(t: Table<R>, r: R): Table<R>
    requires r in t.ops
  {
    t.(respWait := t.respWait - Elements(t.ops[r].ids))
  }

  ghost predicate Cancels<R>(t: Table<R>, inflight: Option<R>, r: R) {
    r in t.respWait.Values && inflight != Some(r)
  }

  ghost function CancelAll<R>(t: Table<R>, e: Option<Error>, inflight: Option<R>): Table<R> {
    Table(map r | r in t.ops :: if Cancels(t, inflight, r) then t.ops[r].Cancelled(e) else t.ops[r], map[])
  }

  ghost function Respond<R>(t: Table<R>, m: Response): Table<R>
    requires t.Closed()
  {
    if m.id !in t.respWait then t
    else
      var r := t.respWait[m.id];
      Table(t.ops[r := t.ops[r].Answered(m)], t.respWait - {m.id})
  }

  ghost function RespondAll<R>(t: Table<R>, ms: seq<Response>): Table<R>
    requires t.Closed()
    decreases |ms|
  {
    if ms == [] then t else RespondAll(Respond(t, ms[0]), ms[1..])
  }
}
