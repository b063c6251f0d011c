/** The life of the client's connections: which reader goroutine is live, and how often each
    connection is closed. */
module Connections {
  import opened Basics
  import opened RequestTable

  /** A read goroutine: blocked in the codec, holding something for the loop, or gone. */
  datatype Reader = NotStarted | Reading | HasMsgs(msgs: seq<Response>) | HasErr(err: Error) | Exited
  {
    predicate Live() {
      Reading? || HasMsgs? || HasErr?
    }
  }

  datatype Conn = Conn(reader: Reader, closes: nat)

  /** The loop is in its select, draining an old reader, or running its deferred function. */
  datatype Phase = Looping | Swapping(next: nat) | Quitting | Quit
  {
    predicate Serving() {
      Looping? || Swapping?
    }
  }

  /** `conn` is the connection of the current handler, `reading` the loop's variable, `offer` the
      connection that a caller stands ready to hand over, `writeConn` the one callers write to. */
  datatype Links = Links(conns: seq<Conn>, conn: nat, phase: Phase, reading: bool, offer: Option<nat>,
                         writeConn: Option<nat>)

  ghost predicate ConnInv(l: Links, c: nat) {
    && c < |l.conns|
    && var k := l.conns[c];
    && k.closes <= 1
    && (c != l.conn ==> !k.reader.Live())
    && (k.closes == 0 && c != l.conn ==> k.reader.NotStarted? && (l.phase == Swapping(c) || l.offer == Some(c)))
    && (k.reader.Exited? ==> k.closes == 1)
  }

  ghost predicate CurrentInv(l: Links) {
    && l.conn < |l.conns|
    && var k := l.conns[l.conn];
    && !k.reader.NotStarted?
    && match l.phase
       case Looping => l.reading == k.reader.Live() && k.closes == (if l.reading then 0 else 1)
       case Swapping(c) => l.reading && k.reader.Live() && k.closes == 1
       case Quitting => l.reading && k.reader.Live() && k.closes == 1
       case Quit => !k.reader.Live() && k.closes == 1
  }

  /** A connection that is on its way to the loop has no reader yet and has not been closed. */
  ghost predicate IncomingInv(l: Links) {
    && (l.offer.Some? ==>
          && l.offer.value < |l.conns| && l.offer.value != l.conn
          && l.conns[l.offer.value] == Conn(NotStarted, 0)
          && l.phase != Swapping(l.offer.value))
    && (l.phase.Swapping? ==>
          && l.phase.next < |l.conns| && l.phase.next != l.conn
          && l.conns[l.phase.next] == Conn(NotStarted, 0))
  }

  /** Callers write to the current connection, or to the one being swapped in. */
  ghost predicate WriteConnInv(l: Links) {
    l.writeConn.Some? ==> l.writeConn.value == if l.phase.Swapping? then l.phase.next else l.conn
  }

  ghost predicate LinksInv(l: Links) {
    && (forall c: nat {:trigger ConnInv(l, c)} :: c < |l.conns| ==> ConnInv(l, c))
    && CurrentInv(l)
    && IncomingInv(l)
    && WriteConnInv(l)
  }

  ghost function SetReader(conns: seq<Conn>, c: nat, rd: Reader): seq<Conn>
    requires c < |conns|
  {
    conns[c := conns[c].(reader := rd)]
  }

  ghost function CloseConn(conns: seq<Conn>, c: nat): seq<Conn>
    requires c < |conns|
  {
    conns[c := conns[c].(closes := conns[c].closes + 1)]
  }

  /** Only the current connection has a live reader. */
  lemma LiveIsCurrent(l: Links, c: nat)
    requires LinksInv(l) && c < |l.conns| && l.conns[c].reader.Live()
    ensures c == l.conn
  {
    assert ConnInv(l, c);
  }

  lemma KeepReader(l: Links, rd: Reader)
    requires LinksInv(l) && l.conns[l.conn].reader.Live() && rd.Live()
    ensures LinksInv(l.(conns := SetReader(l.conns, l.conn, rd)))
  {
    var l' := l.(conns := SetReader(l.conns, l.conn, rd));
    forall c: nat | c < |l'.conns| ensures ConnInv(l', c) {
      assert ConnInv(l, c);
    }
  }

  /** A caller has dialled a connection. */
  lemma KeepDialled(l: Links)
    requires LinksInv(l) && l.offer.None?
    ensures LinksInv(l.(conns := l.conns + [Conn(NotStarted, 0)], offer := Some(|l.conns|)))
  {
    var l' := l.(conns := l.conns + [Conn(NotStarted, 0)], offer := Some(|l.conns|));
    forall c: nat | c < |l'.conns| ensures ConnInv(l', c) {
      assert c < |l.conns| ==> ConnInv(l, c);
    }
  }

  /** The client has quit: the caller closes the connection it dialled. */
  lemma KeepRefused(l: Links)
    requires LinksInv(l) && l.offer.Some? && l.phase.Quit?
    ensures LinksInv(l.(conns := CloseConn(l.conns, l.offer.value), offer := None))
  {
    var l' := l.(conns := CloseConn(l.conns, l.offer.value), offer := None);
    forall c: nat | c < |l'.conns| ensures ConnInv(l', c) {
      assert ConnInv(l, c);
    }
  }

  lemma KeepWriteFailed(l: Links)
    requires LinksInv(l)
    ensures LinksInv(l.(writeConn := None))
  {
    var l' := l.(writeConn := None);
    forall c: nat | c < |l'.conns| ensures ConnInv(l', c) {
      assert ConnInv(l, c);
    }
  }

  /** The connection on offer becomes the one callers write to, while the loop closes the current
      connection and starts to drain its reader. */
  lemma KeepSwappedOut(l: Links)
    requires LinksInv(l) && l.offer.Some? && l.phase.Looping? && l.reading
    ensures LinksInv(l.(conns := CloseConn(l.conns, l.conn), offer := None, writeConn := l.offer,
                        phase := Swapping(l.offer.value)))
  {
    var l' := l.(conns := CloseConn(l.conns, l.conn), offer := None, writeConn := l.offer,
                 phase := Swapping(l.offer.value));
    forall c: nat | c < |l'.conns| ensures ConnInv(l', c) {
      assert ConnInv(l, c);
    }
  }

  /** The old reader has handed its error to the draining loop: the new reader starts. */
  lemma KeepDrained(l: Links)
    requires LinksInv(l) && l.phase.Swapping? && l.conns[l.conn].reader.HasErr?
    ensures LinksInv(l.(conns := SetReader(SetReader(l.conns, l.conn, Exited), l.phase.next, Reading),
                        conn := l.phase.next, phase := Looping))
  {
    var l' := l.(conns := SetReader(SetReader(l.conns, l.conn, Exited), l.phase.next, Reading),
                 conn := l.phase.next, phase := Looping);
    forall c: nat | c < |l'.conns| ensures ConnInv(l', c) {
      assert ConnInv(l, c);
    }
  }

  /** Without a live reader the connection on offer is taken at once. */
  lemma KeepSwappedIn(l: Links)
    requires LinksInv(l) && l.offer.Some? && l.phase.Looping? && !l.reading
    ensures LinksInv(l.(conns := SetReader(l.conns, l.offer.value, Reading), conn := l.offer.value, reading := true,
                        offer := None, writeConn := l.offer))
  {
    var l' := l.(conns := SetReader(l.conns, l.offer.value, Reading), conn := l.offer.value, reading := true,
                        offer := None, writeConn := l.offer);
    forall c: nat | c < |l'.conns| ensures ConnInv(l', c) {
      assert ConnInv(l, c);
    }
  }

  /** The loop learns that the reader has failed, and closes the connection. */
  lemma KeepReadFailed(l: Links)
    requires LinksInv(l) && l.phase.Looping? && l.conns[l.conn].reader.HasErr?
    ensures LinksInv(l.(conns := CloseConn(SetReader(l.conns, l.conn, Exited), l.conn), reading := false))
  {
    var l' := l.(conns := CloseConn(SetReader(l.conns, l.conn, Exited), l.conn), reading := false);
    forall c: nat | c < |l'.conns| ensures ConnInv(l', c) {
      assert ConnInv(l, c);
    }
  }

  lemma KeepClosing(l: Links)
    requires LinksInv(l) && l.phase.Looping? && l.reading
    ensures LinksInv(l.(conns := CloseConn(l.conns, l.conn), phase := Quitting))
  {
    var l' := l.(conns := CloseConn(l.conns, l.conn), phase := Quitting);
    forall c: nat | c < |l'.conns| ensures ConnInv(l', c) {
      assert ConnInv(l, c);
    }
  }

  lemma KeepClosed(l: Links)
    requires LinksInv(l) && l.phase.Looping? && !l.reading
    ensures LinksInv(l.(phase := Quit))
  {
    var l' := l.(phase := Quit);
    forall c: nat | c < |l'.conns| ensures ConnInv(l', c) {
      assert ConnInv(l, c);
    }
  }

  lemma KeepQuit(l: Links)
    requires LinksInv(l) && l.phase.Quitting? && l.conns[l.conn].reader.HasErr?
    ensures LinksInv(l.(conns := SetReader(l.conns, l.conn, Exited), phase := Quit))
  {
    var l' := l.(conns := SetReader(l.conns, l.conn, Exited), phase := Quit);
    forall c: nat | c < |l'.conns| ensures ConnInv(l', c) {
      assert ConnInv(l, c);
    }
  }
}
