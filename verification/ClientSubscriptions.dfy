/** The client's side of a subscription: the class, and its shutdown under any interleaving of
    `Unsubscribe` calls, the forwarder's exit and the handler's close. */
module ClientSubscriptions {
  import opened Basics
  import opened Channels

  /** What the subscriber is told when the subscription ends with `e`: nothing for a nil error, nil
      for a closed client. */
  function Message(e: Option<Error>): seq<Option<Error>> {
    if e.None? then [] else if e == Some(ErrClientQuit) then [None] else [e]
  }

  /** `quitDone` and `errDone` are the two once guards; `asked` counts requests to the server. */
  datatype SubState = SubState(quitDone: bool, quit: Chan<()>, errDone: bool, err: Chan<Option<Error>>, asked: nat)

  const FRESH_SUB := SubState(false, Make(0), false, Make(1), 0)

  /** `quitWithError`, when nobody else is inside it. */
  function Quitted(s: SubState, unsubscribeServer: bool, e: Option<Error>): SubState {
    if s.quitDone then s
    else s.(quitDone := true, quit := s.quit.Close(), asked := s.asked + if unsubscribeServer then 1 else 0,
            err := if e.Some? then s.err.Send(Message(e)[0]) else s.err)
  }

  function Unsubscribed(s: SubState): SubState {
    var s1 := Quitted(s, true, None);
    if s1.errDone then s1 else s1.(errDone := true, err := s1.err.Close())
  }

  class ClientSubscription {
    var subid: string
    var starts: nat            // forwarders started
    var quitDone: bool
    var quit: Chan<()>
    var errDone: bool
    var err: Chan<Option<Error>>
    var asked: nat

    constructor ()
      ensures State() == FRESH_SUB && starts == 0
    {
      subid, starts, quitDone, quit, errDone, err, asked := "", 0, false, Make(0), false, Make(1), 0;
    }

    function State(): SubState
      reads this
    {
      SubState(quitDone, quit, errDone, err, asked)
    }

    method QuitWithError(unsubscribeServer: bool, e: Option<Error>)
      modifies this`quitDone, this`quit, this`err, this`asked
      ensures State() == Quitted(old(State()), unsubscribeServer, e)
      ensures old(quitDone) ==> State() == old(State())
      ensures !old(quitDone) ==>
                && quitDone && quit == old(quit).Close()
                && asked == old(asked) + (if unsubscribeServer then 1 else 0)
                && err == if e.None? then old(err)
                          else if e.value == ErrClientQuit then old(err).Send(None) else old(err).Send(e)
    {
      if !quitDone {
        quitDone := true;
        quit := quit.Close();
        if unsubscribeServer {
          asked := asked + 1;
        }
        if e.Some? {
          var told := e;
          if e == Some(ErrClientQuit) {
            told := None;
          }
          err := err.Send(told);
        }
      }
    }

    method Unsubscribe()
      modifies this`quitDone, this`quit, this`errDone, this`err, this`asked
      ensures State() == Unsubscribed(old(State()))
      ensures quitDone && errDone
      ensures !old(quitDone) && !old(errDone) ==>
                quit == old(quit).Close() && asked == old(asked) + 1 && err == old(err).Close()
      ensures old(quitDone) && !old(errDone) ==> quit == old(quit) && asked == old(asked) && err == old(err).Close()
    {
      QuitWithError(true, None);
      if !errDone {
        errDone := true;
        err := err.Close();
      }
    }
  }

  // ---------------------------------------------------------------------------------------------
  // Shutdown with every interleaving

  /** A call of `quitWithError`, followed by closing `err` if it comes from `Unsubscribe`. */
  datatype Call = Call(unsubscribeServer: bool, e: Option<Error>, closesErr: bool)

  /** `quitOnce.Do` lets one caller in and makes the others wait until it has finished. */
  datatype Once = Fresh | Busy(t: nat) | Over

  datatype At =
    | Arriving(call: Call)       // at quitOnce.Do
    | ClosingQuit(call: Call)    // inside: about to close quit
    | Asking(call: Call)         // inside: about to ask the server, if it has to
    | Telling(call: Call)        // inside: about to send on err, if there is an error
    | Past(call: Call)           // after quitOnce.Do
    | Gone(call: Call)
  {
    predicate Inside() {
      ClosingQuit? || Asking? || Telling?
    }
  }

  /** `winner` remembers the call that was let in; `asked` counts requests to the server. */
  datatype Shutdown = Shutdown(
    once: Once, errOnce: bool, quit: Chan<()>, err: Chan<Option<Error>>, asked: nat,
    at: map<nat, At>, winner: Option<Call>)

  const START := Shutdown(Fresh, false, Make(0), Make(1), 0, map[], None)

  datatype Event =
    | Arrive(call: Call)
    | Enter
    | Pass
    | CloseQuit
    | Ask
    | Tell
    | Leave
    | Take                           // the subscriber receives from err

  ghost predicate Enabled(s: Shutdown, t: nat, ev: Event) {
    if ev.Arrive? then t !in s.at
    else if ev.Take? then s.err.CanReceive()
    else t in s.at && match ev
      case Enter => s.at[t].Arriving? && s.once.Fresh?
      case Pass => s.at[t].Arriving? && s.once.Over?
      case CloseQuit => s.at[t].ClosingQuit?
      case Ask => s.at[t].Asking?
      case Tell => s.at[t].Telling?
      case Leave => s.at[t].Past?
  }

  ghost function Apply(s: Shutdown, t: nat, ev: Event): Shutdown
    requires Enabled(s, t, ev)
  {
    if ev.Arrive? then s.(at := s.at[t := Arriving(ev.call)])
    else if ev.Take? then s.(err := s.err.Receive())
    else
      var call := s.at[t].call;
      match ev
      case Enter => s.(once := Busy(t), at := s.at[t := ClosingQuit(call)], winner := Some(call))
      case Pass => s.(at := s.at[t := Past(call)])
      case CloseQuit => s.(quit := s.quit.Close(), at := s.at[t := Asking(call)])
      case Ask => s.(asked := s.asked + if call.unsubscribeServer then 1 else 0, at := s.at[t := Telling(call)])
      case Tell =>
        s.(err := if call.e.Some? then s.err.Send(Message(call.e)[0]) else s.err,
           once := Over, at := s.at[t := Past(call)])
      case Leave =>
        if call.closesErr && !s.errOnce
        then s.(errOnce := true, err := s.err.Close(), at := s.at[t := Gone(call)])
        else s.(at := s.at[t := Gone(call)])
  }

  ghost function Exec(s: Shutdown, steps: seq<(nat, Event)>): Shutdown
    requires Run(s, steps)
    decreases |steps|
  {
    if steps == [] then s else Exec(Apply(s, steps[0].0, steps[0].1), steps[1..])
  }

  ghost predicate Run(s: Shutdown, steps: seq<(nat, Event)>)
    decreases |steps|
  {
    steps == [] || (Enabled(s, steps[0].0, steps[0].1) && Run(Apply(s, steps[0].0, steps[0].1), steps[1..]))
  }

  /** The call that was let in has got as far as asking the server, and does ask. */
  ghost predicate HasAsked(s: Shutdown) {
    && s.winner.Some? && s.winner.value.unsubscribeServer
    && (s.once.Over? || (s.once.Busy? && s.once.t in s.at && s.at[s.once.t].Telling?))
  }

  ghost predicate Inv(s: Shutdown) {
    && s.quit.Healthy() && s.err.Healthy() && s.err.cap == 1
    && (s.once.Fresh? <==> s.winner.None?)
    && (forall t :: t in s.at && s.at[t].Inside() ==> s.once == Busy(t) && s.winner == Some(s.at[t].call))
    && (s.once.Busy? ==> s.once.t in s.at && s.at[s.once.t].Inside())
    && (s.quit.closed <==> s.once.Over? || (s.once.Busy? && !s.at[s.once.t].ClosingQuit?))
    && (forall t :: t in s.at && (s.at[t].Past? || s.at[t].Gone?) ==> s.once.Over?)
    && s.err.sent == (if s.once.Over? then Message(s.winner.value.e) else [])
    && s.asked == (if HasAsked(s) then 1 else 0)
    && (s.err.closed <==> s.errOnce)
    && (s.errOnce <==> exists t :: t in s.at && s.at[t].Gone? && s.at[t].call.closesErr)
  }

  lemma KeepInv(s: Shutdown, t: nat, ev: Event)
    requires Inv(s) && Enabled(s, t, ev)
    ensures Inv(Apply(s, t, ev))
  {
    var s' := Apply(s, t, ev);
    if s.errOnce {
      var u :| u in s.at && s.at[u].Gone? && s.at[u].call.closesErr;
      assert s'.at[u] == s.at[u];
    } else if s'.errOnce {
      assert s'.at[t].Gone? && s'.at[t].call.closesErr;
    }
  }

  lemma {:induction false} RunKeepsInv(s: Shutdown, steps: seq<(nat, Event)>)
    requires Inv(s) && Run(s, steps)
    ensures Inv(Exec(s, steps))
    decreases |steps|
  {
    if steps != [] {
      KeepInv(s, steps[0].0, steps[0].1);
      RunKeepsInv(Apply(s, steps[0].0, steps[0].1), steps[1..]);
    }
  }

  /** In every interleaving of any number of calls: `quit` is closed at most once; the send on `err`
      finds room; what is sent is decided by the call that was let in, once that has finished: nothing for
      a nil error, nil for a closed client, any other error itself; nothing is sent after `err` is closed;
      `err` is closed exactly when some `Unsubscribe` has returned; and the server is asked once if the call
      that was let in asks, and otherwise not at all. */
  lemma ShutdownSafety(steps: seq<(nat, Event)>)
    requires Run(START, steps)
    ensures var s := Exec(START, steps);
            && s.quit.faults == [] && s.err.faults == []
            && (s.once.Over? ==> s.winner.Some?)
            && s.err.sent == (if !s.once.Over? || s.winner.value.e.None? then []
                              else if s.winner.value.e == Some(ErrClientQuit) then [None] else [s.winner.value.e])
            && s.asked == (if HasAsked(s) then 1 else 0)
            && (s.err.closed ==> s.quit.closed && s.once.Over?)
            && (s.err.closed <==> exists t :: t in s.at && s.at[t].Gone? && s.at[t].call.closesErr)
            && ((exists t :: t in s.at && (s.at[t].Past? || s.at[t].Gone?)) ==> s.quit.closed)
  {
    RunKeepsInv(START, steps);
  }

  /** When all calls have returned, subscriber and server have been told, and the channels closed, as if the
      call that was let in had run alone, followed by one that closes `err` if there was one. */
  lemma ShutdownIsSequential(steps: seq<(nat, Event)>)
    requires Run(START, steps) && Exec(START, steps).at != map[]
    requires forall t :: t in Exec(START, steps).at ==> Exec(START, steps).at[t].Gone?
    ensures var s := Exec(START, steps);
            && s.winner.Some?
            && var q := Quitted(FRESH_SUB, s.winner.value.unsubscribeServer, s.winner.value.e);
            && var q' := if exists t :: t in s.at && s.at[t].call.closesErr then Unsubscribed(q) else q;
            && s.quit.closed == q'.quit.closed && s.asked == q'.asked
            && s.err.sent == q'.err.sent && s.err.closed == q'.err.closed && s.err.faults == q'.err.faults
  {
    RunKeepsInv(START, steps);
    var s := Exec(START, steps);
    var t :| t in s.at;
    assert s.at[t].Gone?;
  }

  // Every call gets through.

  function Rank(a: At): nat {
    match a
    case Arriving(_) => 5
    case ClosingQuit(_) => 4
    case Asking(_) => 3
    case Telling(_) => 2
    case Past(_) => 1
    case Gone(_) => 0
  }

  /** The next event of a call that is not waiting for another. */
  function Onward(a: At, once: Once): Event {
    match a
    case Arriving(_) => if once.Fresh? then Enter else Pass
    case ClosingQuit(_) => CloseQuit
    case Asking(_) => Ask
    case Telling(_) => Tell
    case _ => Leave
  }

  /** The call goes on, unless it waits for the one inside, which then does. */
  lemma GoesOn(s: Shutdown, t: nat) returns (u: nat)
    requires Inv(s) && t in s.at && !s.at[t].Gone?
    ensures u == t || (s.at[t].Arriving? && s.once == Busy(u))
    ensures u in s.at && Enabled(s, u, Onward(s.at[u], s.once))
    ensures var s' := Apply(s, u, Onward(s.at[u], s.once));
            && t in s'.at && u in s'.at && Rank(s'.at[u]) < Rank(s.at[u]) && s'.at[t].call == s.at[t].call
            && (u != t ==> s'.at[t] == s.at[t] && (s'.once == s.once || s'.once.Over?))
  {
    u := if s.at[t].Arriving? && s.once.Busy? then s.once.t else t;
  }

  ghost function Inside(s: Shutdown, t: nat): nat
    requires t in s.at
  {
    if s.at[t].Arriving? && s.once.Busy? && s.once.t in s.at then Rank(s.at[s.once.t]) else 0
  }

  lemma {:induction false} Finishes(s: Shutdown, t: nat) returns (more: seq<(nat, Event)>)
    requires Inv(s) && t in s.at
    ensures Run(s, more) && t in Exec(s, more).at && Exec(s, more).at[t] == Gone(s.at[t].call)
    decreases Rank(s.at[t]), Inside(s, t)
  {
    more := [];
    if !s.at[t].Gone? {
      var u := GoesOn(s, t);
      var ev := Onward(s.at[u], s.once);
      KeepInv(s, u, ev);
      more := Finishes(Apply(s, u, ev), t);
      more := [(u, ev)] + more;
    }
  }

  /** In every interleaving, every call can still return: nobody waits for ever at `quitOnce`. */
  lemma EveryCallCanReturn(steps: seq<(nat, Event)>, t: nat) returns (more: seq<(nat, Event)>)
    requires Run(START, steps) && t in Exec(START, steps).at
    ensures Run(Exec(START, steps), more)
    ensures var s := Exec(Exec(START, steps), more); t in s.at && s.at[t] == Gone(Exec(START, steps).at[t].call)
  {
    RunKeepsInv(START, steps);
    more := Finishes(Exec(START, steps), t);
  }

  /** For every call there is a run in which it is let in and returns. */
  lemma AnyCallReturns(call: Call) returns (steps: seq<(nat, Event)>)
    ensures Run(START, steps)
    ensures var s := Exec(START, steps); s.at == map[0 := Gone(call)] && s.winner == Some(call)
  {
    var s0 := Apply(START, 0, Arrive(call));
    var s1 := Apply(s0, 0, Enter);
    var s2 := Apply(s1, 0, CloseQuit);
    var s3 := Apply(s2, 0, Ask);
    var s4 := Apply(s3, 0, Tell);
    var s5 := Apply(s4, 0, Leave);
    assert Exec(s5, []) == s5;
    Prepend(s4, 0, Leave, []);
    Prepend(s3, 0, Tell, [(0, Leave)] + []);
    Prepend(s2, 0, Ask, [(0, Tell)] + ([(0, Leave)] + []));
    Prepend(s1, 0, CloseQuit, [(0, Ask)] + ([(0, Tell)] + ([(0, Leave)] + [])));
    steps := [(0, CloseQuit)] + ([(0, Ask)] + ([(0, Tell)] + ([(0, Leave)] + [])));
    Prepend(s0, 0, Enter, steps);
    Prepend(START, 0, Arrive(call), [(0, Enter)] + steps);
    steps := [(0, Arrive(call))] + ([(0, Enter)] + steps);
  }

  lemma Prepend(s: Shutdown, t: nat, ev: Event, more: seq<(nat, Event)>)
    requires Enabled(s, t, ev) && Run(Apply(s, t, ev), more)
    ensures Run(s, [(t, ev)] + more) && Exec(s, [(t, ev)] + more) == Exec(Apply(s, t, ev), more)
  {
    assert ([(t, ev)] + more)[1..] == more;
  }
}
