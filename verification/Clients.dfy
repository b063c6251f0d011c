/** The dispatch loop's variables as an object, with one method for each case of its `select`. */
module Clients {
  import opened Basics
  import opened Channels
  import opened RequestTable
  import opened Dispatch
  import opened Handlers
  import opened ClientSubscriptions
  import opened Notifiers

  /** A connection's codec, of which all that matters here is how often it closes the connection. */
  class Codec {
    var once: bool
    var closes: nat

    constructor ()
      ensures !once && closes == 0
    {
      once, closes := false, 0;
    }

    method Close()
      modifies this
      ensures once && closes == if old(once) then old(closes) else old(closes) + 1
    {
      if !once {
        once := true;
        closes := closes + 1;
      }
    }
  }

  /** What a reader hands to the loop. */
  datatype ReadEvent = ReadOp | ReadErr

  /** Drops what the reader of a closed connection still delivers (`rest`), up to its error. */
  method DrainRead(rest: seq<ReadEvent>) returns (n: nat)
    requires ReadErr in rest
    ensures 0 < n <= |rest| && rest[n - 1] == ReadErr && ReadErr !in rest[..n - 1]
  {
    n := 0;
    while rest[n] != ReadErr
      invariant n < |rest| && ReadErr !in rest[..n]
      decreases |rest| - n
    {
      n := n + 1;
    }
    n := n + 1;
  }

  class Client {
    var handler: Handler
    var codec: Codec            // with `handler`, the current connection
    var lastOp: RequestOp?      // the request whose write is in progress
    var listening: bool         // reqInitLock is not nil
    var reading: bool
    var closing: Chan<()>
    var didClose: Chan<()>

    constructor (codec: Codec)
      ensures fresh(handler) && this.codec == codec && Valid({})
      ensures View({}) == Loop(Table(map[], map[]), None, true, true)
      ensures closing == didClose == Make(0)
    {
      handler := new Handler();
      this.codec := codec;
      lastOp, listening, reading := null, true, true;
      closing, didClose := Make(0), Make(0);
    }

    ghost function View(all: set<RequestOp>): Loop<RequestOp>
      reads this`handler, this`lastOp, this`listening, this`reading, handler`respWait, all
    {
      Loop(handler.View(all), AsOption(lastOp), listening, reading)
    }

    ghost predicate Valid(all: set<RequestOp>)
      reads this`handler, this`lastOp, handler
    {
      handler.Valid(all) && (lastOp != null ==> lastOp in all)
    }

    /** A batch of responses has been read. */
    method OnReadOp(ms: seq<Response>, ghost all: set<RequestOp>)
      requires Valid(all)
      modifies handler`respWait, handler`clientSubs, all`err, all`resp, SubsOf(all)`subid, SubsOf(all)`starts
      ensures Valid(all) && View(all) == OnRead(old(View(all)), ms)
      ensures Starts(SubsOf(all)) == Started(old(handler.respWait), old(Starts(SubsOf(all))), ms)
      ensures handler.clientSubs == Subscribed(old(handler.respWait), old(handler.clientSubs), ms)
    {
      handler.HandleResponses(ms, all);
    }

    /** Closes the current connection, its handler first. */
    method CloseConn(e: Error, inflight: RequestOp?, ghost all: set<RequestOp>, ghost subs: set<Subscription>)
      requires handler.Valid(all)
      modifies codec, handler, all, handler.clientSubs.Values, handler.serverSubs.Values
      ensures handler.Valid(all) && handler.View(all) == CancelAll(old(handler.View(all)), Some(e), AsOption(inflight))
      ensures handler.Book(subs) == ServerSubscriptions.TellAll(old(handler.Book(subs)), e)
      ensures handler.clientSubs == map[]
      ensures forall s :: s in old(handler.clientSubs.Values) ==> s.State() == Quitted(old(s.State()), false, Some(e))
      ensures forall s :: s in old(handler.clientSubs.Values) && old(s.State()) == FRESH_SUB ==>
                s.err.sent == if e == ErrClientQuit then [None] else [Some(e)]
      ensures codec.once && codec.closes == old(codec.closes) + if old(codec.once) then 0 else 1
    {
      handler.Close(e, inflight, all, subs);
      codec.Close();
    }

    /** The reader has failed: the connection is closed. */
    method OnReadError(e: Error, ghost all: set<RequestOp>, ghost subs: set<Subscription>)
      requires Valid(all)
      modifies this`reading, codec, handler, all, handler.clientSubs.Values, handler.serverSubs.Values
      ensures Valid(all) && View(all) == OnReadErr(old(View(all)), e)
      ensures handler.Book(subs) == ServerSubscriptions.TellAll(old(handler.Book(subs)), e)
      ensures handler.clientSubs == map[]
      ensures forall s :: s in old(handler.clientSubs.Values) ==> s.State() == Quitted(old(s.State()), false, Some(e))
      ensures forall s :: s in old(handler.clientSubs.Values) && old(s.State()) == FRESH_SUB ==>
                s.err.sent == if e == ErrClientQuit then [None] else [Some(e)]
      ensures codec.once && codec.closes == old(codec.closes) + if old(codec.once) then 0 else 1
    {
      CloseConn(e, lastOp, all, subs);
      reading := false;
    }

    /** A caller has reconnected: the old connection is closed and drained if its reader is live, and
        the request in flight is registered on a new handler.  `rest` is what the old reader has yet
        to deliver; `drained` counts what is dropped of it. */
    method OnReconnected(newCodec: Codec, rest: seq<ReadEvent>, ghost all: set<RequestOp>,
                         ghost subs: set<Subscription>)
      returns (drained: nat)
      requires Valid(all) && lastOp != null && newCodec != codec
      requires reading ==> ReadErr in rest
      modifies this`handler, this`codec, this`reading
      modifies codec, handler, all, handler.clientSubs.Values, handler.serverSubs.Values
      ensures Valid(all) && fresh(handler) && codec == newCodec
      ensures View(all) == OnSwapIn(if old(reading) then OnSwapOut(old(View(all))) else old(View(all)))
      ensures old(reading) ==>
                && old(codec).once && old(codec).closes == old(codec.closes) + (if old(codec.once) then 0 else 1)
                && old(handler).Book(subs) == ServerSubscriptions.TellAll(old(handler.Book(subs)), ErrClientReconnected)
                && (forall s :: s in old(handler.clientSubs.Values) ==>
                      s.State() == Quitted(old(s.State()), false, Some(ErrClientReconnected)))
                && 0 < drained <= |rest| && rest[drained - 1] == ReadErr
      ensures !old(reading) ==> old(codec).closes == old(codec.closes) && drained == 0
    {
      drained := StopReading(ErrClientReconnected, lastOp, rest, all, subs);
      SwapIn(newCodec, all);
    }

    /** A new handler takes over on a new connection, with the request in flight. */
    method SwapIn(newCodec: Codec, ghost all: set<RequestOp>)
      requires Valid(all) && lastOp != null
      modifies this`handler, this`codec, this`reading
      ensures Valid(all) && fresh(handler) && codec == newCodec
      ensures View(all) == OnSwapIn(old(View(all)))
    {
      ghost var t := handler.View(all);
      handler := new Handler();
      codec := newCodec;
      reading := true;
      assert handler.View(all) == t.(respWait := map[]);
      handler.AddRequestOp(lastOp, all);
    }

    method OnRequest(op: RequestOp, ghost all: set<RequestOp>)
      requires Valid(all) && op in all
      modifies this`listening, this`lastOp, handler`respWait
      ensures Valid(all) && View(all) == OnReqInit(old(View(all)), op)
    {
      listening := false;
      lastOp := op;
      handler.AddRequestOp(op, all);
    }

    method OnSent(err: Option<Error>, ghost all: set<RequestOp>)
      requires Valid(all) && lastOp != null
      modifies this`listening, this`lastOp, handler`respWait
      ensures Valid(all) && View(all) == OnReqSent(old(View(all)), err)
    {
      if err.Some? {
        handler.RemoveRequestOp(lastOp, all);
      }
      listening := true;
      lastOp := null;
    }

    method OnReqTimeout(op: RequestOp, ghost all: set<RequestOp>)
      requires Valid(all) && op in all
      modifies handler`respWait
      ensures Valid(all) && View(all) == OnTimeout(old(View(all)), op)
    {
      handler.RemoveRequestOp(op, all);
    }

    /** `close` has been received: the loop returns through its deferred function. */
    method OnClose(rest: seq<ReadEvent>, ghost all: set<RequestOp>, ghost subs: set<Subscription>)
      returns (drained: nat)
      requires Valid(all) && (reading ==> ReadErr in rest)
      modifies this`closing, this`didClose, codec, handler, all, handler.clientSubs.Values, handler.serverSubs.Values
      ensures Valid(all) && View(all) == OnQuit(old(View(all)))
      ensures closing == old(closing).Close() && didClose == old(didClose).Close()
      ensures reading ==>
                && codec.once && codec.closes == old(codec.closes) + (if old(codec.once) then 0 else 1)
                && handler.Book(subs) == ServerSubscriptions.TellAll(old(handler.Book(subs)), ErrClientQuit)
                && handler.clientSubs == map[]
                && (forall s :: s in old(handler.clientSubs.Values) ==>
                      s.State() == Quitted(old(s.State()), false, Some(ErrClientQuit)))
                && (forall s :: s in old(handler.clientSubs.Values) && old(s.State()) == FRESH_SUB ==>
                      s.err.sent == [None])
                && 0 < drained <= |rest| && rest[drained - 1] == ReadErr
      ensures !reading ==> codec.closes == old(codec.closes) && drained == 0
    {
      closing := closing.Close();
      drained := StopReading(ErrClientQuit, null, rest, all, subs);
      didClose := didClose.Close();
    }

    /** If a reader is live: closes the connection, and drops what the reader still delivers. */
    method StopReading(e: Error, inflight: RequestOp?, rest: seq<ReadEvent>, ghost all: set<RequestOp>,
                       ghost subs: set<Subscription>)
      returns (drained: nat)
      requires handler.Valid(all) && (reading ==> ReadErr in rest)
      modifies codec, handler, all, handler.clientSubs.Values, handler.serverSubs.Values
      ensures handler.Valid(all)
      ensures handler.View(all) ==
              if reading then CancelAll(old(handler.View(all)), Some(e), AsOption(inflight)) else old(handler.View(all))
      ensures reading ==>
                && codec.once && codec.closes == old(codec.closes) + (if old(codec.once) then 0 else 1)
                && handler.Book(subs) == ServerSubscriptions.TellAll(old(handler.Book(subs)), e)
                && handler.clientSubs == map[]
                && (forall s :: s in old(handler.clientSubs.Values) ==>
                      s.State() == Quitted(old(s.State()), false, Some(e)))
                && (forall s :: s in old(handler.clientSubs.Values) && old(s.State()) == FRESH_SUB ==>
                      s.err.sent == if e == ErrClientQuit then [None] else [Some(e)])
                && 0 < drained <= |rest| && rest[drained - 1] == ReadErr
      ensures !reading ==> codec.closes == old(codec.closes) && drained == 0
    {
      drained := 0;
      if reading {
        CloseConn(e, inflight, all, subs);
        drained := DrainRead(rest);
      }
    }
  }
}
