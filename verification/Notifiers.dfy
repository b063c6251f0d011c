/** The server's side of a subscription's notifications: `Notifier` on an ordered connection. */
module Notifiers {
  import opened Basics
  import opened Channels

  /** What travels on a connection, as far as subscriptions are concerned. */
  datatype Frame<V> = Answer(id: string) | Notification(id: string, v: V) | Other

  function Frames<V>(id: string, vs: seq<V>): (fs: seq<Frame<V>>)
    ensures |fs| == |vs|
    ensures forall i :: 0 <= i < |fs| ==> fs[i] == Notification(id, vs[i])
  {
    seq(|vs|, i requires 0 <= i < |vs| => Notification(id, vs[i]))
  }

  /** A connection as a writer: what has been written, in order.  Which attempts fail is up to the
      environment; a failed attempt writes nothing. */
  class Writer<V> {
    const fails: nat -> bool
    var attempts: nat
    var written: seq<Frame<V>>

    constructor (fails: nat -> bool)
      ensures written == [] && attempts == 0 && this.fails == fails
    {
      this.fails := fails;
      attempts, written := 0, [];
    }

    method WriteJSON(f: Frame<V>) returns (err: Option<Error>)
      modifies this
      ensures attempts == old(attempts) + 1
      ensures err.Some? <==> fails(old(attempts))
      ensures written == if err.Some? then old(written) else old(written) + [f]
    {
      err := if fails(attempts) then Some(ErrOther("write")) else None;
      attempts := attempts + 1;
      if err.None? {
        written := written + [f];
      }
    }
  }

  /** `Subscription` on the server: its id, and the channel on which its end is told. */
  class Subscription {
    const id: string
    var err: Chan<Option<Error>>

    constructor (id: string)
      ensures this.id == id && err == Make(1)
    {
      this.id := id;
      err := Make(1);
    }

    /** The handler is closed: the error, and then the end. */
    method Tell(e: Error)
      modifies this`err
      ensures err == Told(old(err), e)
      ensures old(err) == Make(1) ==> err == Make(1).(sent := [Some(e)], closed := true)
    {
      err := err.Send(Some(e));
      err := err.Close();
    }
  }

  ghost function Told(c: Chan<Option<Error>>, e: Error): Chan<Option<Error>> {
    c.Send(Some(e)).Close()
  }

  class Notifier<V> {
    const conn: Writer<V>
    var sub: Subscription?
    var buffer: seq<V>
    var callReturned: bool
    var activated: bool

    constructor (conn: Writer<V>)
      ensures this.conn == conn && sub == null && buffer == [] && !callReturned && !activated
    {
      this.conn := conn;
      sub, buffer, callReturned, activated := null, [], false, false;
    }

    /** Panics if there is a subscription already or the call has returned. */
    method CreateSubscription(id: string) returns (s: Subscription)
      requires sub == null && !callReturned
      modifies this
      ensures fresh(s) && s == sub && s.id == id && s.err == Make(1)
      ensures buffer == old(buffer) && callReturned == old(callReturned) && activated == old(activated)
    {
      s := new Subscription(id);
      sub := s;
    }

    /** `enc` is the encoded payload, if it can be encoded.  Before activation payloads are kept back;
        afterwards they are written at once. */
    method Notify(id: string, enc: Option<V>) returns (err: Option<Error>)
      requires enc.Some? ==> sub != null && sub.id == id
      modifies this, conn
      ensures sub == old(sub) && callReturned == old(callReturned) && activated == old(activated)
      ensures enc.None? ==> err.Some? && buffer == old(buffer) && conn.written == old(conn.written)
      ensures enc.Some? && activated ==>
                && buffer == old(buffer)
                && conn.written == old(conn.written) + if err.None? then [Notification(id, enc.value)] else []
      ensures enc.Some? && !activated ==>
                err.None? && buffer == old(buffer) + [enc.value] && conn.written == old(conn.written)
    {
      if enc.None? {
        return Some(ErrOther("json: unsupported value"));
      }
      if activated {
        err := conn.WriteJSON(Notification(id, enc.value));
        return;
      }
      buffer := buffer + [enc.value];
      err := None;
    }

    method TakeSubscription() returns (s: Subscription?)
      modifies this
      ensures s == sub == old(sub) && callReturned
      ensures buffer == old(buffer) && activated == old(activated)
    {
      callReturned := true;
      s := sub;
    }

    /** Writes everything kept back, in order; stops at the first failure and then stays inactive. */
    method Activate() returns (err: Option<Error>)
      requires buffer != [] ==> sub != null
      modifies this, conn
      ensures sub == old(sub) && buffer == old(buffer) && callReturned == old(callReturned)
      ensures err.None? ==> activated
      ensures err.None? && buffer != [] ==> conn.written == old(conn.written) + Frames(sub.id, buffer)
      ensures err.None? && buffer == [] ==> conn.written == old(conn.written)
      ensures err.Some? ==>
                && activated == old(activated)
                && exists k :: 0 <= k < |buffer| && conn.written == old(conn.written) + Frames(sub.id, buffer[..k])
    {
      var i := 0;
      while i < |buffer|
        invariant 0 <= i <= |buffer|
        invariant sub == old(sub) && buffer == old(buffer) && callReturned == old(callReturned)
        invariant activated == old(activated)
        invariant i == 0 ==> conn.written == old(conn.written)
        invariant i > 0 ==> sub != null && conn.written == old(conn.written) + Frames(sub.id, buffer[..i])
      {
        err := conn.WriteJSON(Notification(sub.id, buffer[i]));
        if err.Some? {
          assert Frames(sub.id, buffer[..0]) == [];
          return;
        }
        assert buffer[..i + 1] == buffer[..i] + [buffer[i]];
        assert Frames(sub.id, buffer[..i + 1]) == Frames(sub.id, buffer[..i]) + [Notification(sub.id, buffer[i])];
        i := i + 1;
      }
      assert buffer[..|buffer|] == buffer;
      activated := true;
      err := None;
    }
  }
}
