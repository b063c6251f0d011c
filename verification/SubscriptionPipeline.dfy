/** One subscription from the server's `Notify` to the subscriber's channel: the notifier, an ordered
    connection shared with other traffic, the client's dispatch loop, and the forwarder. */
module SubscriptionPipeline {
  import opened Basics
  import opened Forwarders
  import opened Notifiers

  datatype Mode = Inactive | Activating | Active | Stalled   // Stalled: activate returned an error

  datatype AnswerState = NotYet | Written | Failed

  /** `flushed` counts the buffered payloads that `activate` has written. */
  datatype Server<V> = Server(buffer: seq<V>, flushed: nat, mode: Mode, answer: AnswerState, accepted: seq<V>)

  datatype Known = Awaiting | Registered | Ended

  /** `inHand` is the payload with which the dispatch loop is blocked in `deliver`; `forwarding` says
      that the forwarder runs, with `queue` as its buffer. */
  datatype Client<V> = Client(known: Known, inHand: Option<V>, forwarding: bool, queue: seq<V>, delivered: seq<V>)

  datatype Pipe<V> = Pipe(id: string, server: Server<V>, wire: seq<Frame<V>>, client: Client<V>)

  ghost function Start<V>(id: string): Pipe<V> {
    Pipe(id, Server([], 0, Inactive, NotYet, []), [], Client(Awaiting, None, false, [], []))
  }

  datatype Step<V> =
    | NotifyStep(v: V, ok: bool)     // `ok`: the write, if there is one, succeeds
    | WriteAnswer(ok: bool)
    | ActivateBegin
    | ActivateNext(ok: bool)
    | ActivateEnd
    | OtherWrite(f: Frame<V>)
    | Read(stillWaiting: bool)       // the loop takes a frame; the subscribe call may have given up
    | HandOver(decodes: bool)        // the forwarder takes what the loop holds
    | DropInHand                     // deliver finds the subscription ended
    | Emit                           // the subscriber's channel takes the first queued value
    | Quit                           // Unsubscribe, or the handler is closed
    | ForwarderQuits

  /** (Once `quit` is closed neither end of `in` waits in its select any more, so nothing passes.) */
  ghost predicate Enabled<V>(p: Pipe<V>, st: Step<V>) {
    match st
    case NotifyStep(v, ok) => !p.server.mode.Activating?
    case WriteAnswer(ok) => p.server.answer.NotYet?
    case ActivateBegin => !p.server.answer.NotYet? && p.server.mode.Inactive?
    case ActivateNext(ok) => p.server.mode.Activating? && p.server.flushed < |p.server.buffer|
    case ActivateEnd => p.server.mode.Activating? && p.server.flushed >= |p.server.buffer|
    case OtherWrite(f) => f.Other? || f.id != p.id
    case Read(_) => p.wire != [] && p.client.inHand.None?
    case HandOver(_) => p.client.inHand.Some? && p.client.forwarding && !p.client.known.Ended?
    case DropInHand => p.client.inHand.Some? && p.client.known.Ended?
    case Emit => p.client.forwarding && p.client.queue != []
    case Quit => p.client.known.Registered?
    case ForwarderQuits => p.client.forwarding && p.client.known.Ended?
  }

  ghost function Apply<V>(p: Pipe<V>, st: Step<V>): Pipe<V>
    requires Enabled(p, st)
  {
    var sv, cl := p.server, p.client;
    match st
    case NotifyStep(v, ok) =>
      if sv.mode.Active? then
        if ok then p.(server := sv.(accepted := sv.accepted + [v]), wire := p.wire + [Notification(p.id, v)]) else p
      else p.(server := sv.(buffer := sv.buffer + [v], accepted := sv.accepted + [v]))
    case WriteAnswer(ok) =>
      p.(server := sv.(answer := if ok then Written else Failed), wire := p.wire + if ok then [Answer(p.id)] else [])
    case ActivateBegin => p.(server := sv.(mode := Activating))
    case ActivateNext(ok) =>
      if ok then p.(server := sv.(flushed := sv.flushed + 1),
                    wire := p.wire + [Notification(p.id, sv.buffer[sv.flushed])])
      else p.(server := sv.(mode := Stalled))
    case ActivateEnd => p.(server := sv.(mode := Active))
    case OtherWrite(f) => p.(wire := p.wire + [f])
    case Read(stillWaiting) => p.(wire := p.wire[1..], client := OnFrame(p.id, cl, p.wire[0], stillWaiting))
    case HandOver(decodes) =>
      p.(client := Forwarded(cl.(inHand := None), ChoseIn(if decodes then cl.inHand else None)))
    case DropInHand => p.(client := cl.(inHand := None))
    case Emit => p.(client := Forwarded(cl, ChoseSend))
    case Quit => p.(client := cl.(known := Ended))
    case ForwarderQuits => p.(client := Forwarded(cl, ChoseQuit))
  }

  /** One turn of the forwarder's loop (`Forwarders.Forward`): what it emits is delivered, and when it
      ends the subscription has ended. */
  ghost function Forwarded<V>(cl: Client<V>, c: Choice<V>): Client<V> {
    match Turn(Pump(cl.delivered, cl.queue), c)
    case Some(pump) => cl.(delivered := pump.emitted, queue := pump.queue)
    case None => cl.(forwarding := false, queue := [], known := Ended)
  }

  /** The dispatch loop handles one frame: `handleResponse`, or `handleSubscriptionResult`. */
  ghost function OnFrame<V>(id: string, cl: Client<V>, f: Frame<V>, stillWaiting: bool): Client<V> {
    if f == Answer(id) && stillWaiting && cl.known.Awaiting? then cl.(known := Registered, forwarding := true)
    else if f.Notification? && f.id == id && !cl.known.Awaiting? then cl.(inHand := Some(f.v))
    else cl
  }

  /** The payloads of this subscription that are on the way, in order. */
  ghost function Payloads<V>(id: string, wire: seq<Frame<V>>): seq<V> {
    if wire == [] then []
    else (if wire[0].Notification? && wire[0].id == id then [wire[0].v] else []) + Payloads(id, wire[1..])
  }

  lemma {:induction false} PayloadsAppend<V>(id: string, wire: seq<Frame<V>>, f: Frame<V>)
    ensures Payloads(id, wire + [f]) ==
            Payloads(id, wire) + if f.Notification? && f.id == id then [f.v] else []
  {
    if wire != [] {
      assert (wire + [f])[1..] == wire[1..] + [f];
      PayloadsAppend(id, wire[1..], f);
    } else {
      assert (wire + [f])[1..] == [];
    }
  }

  /** The answer comes before all notifications. */
  ghost predicate AnswerFirst<V>(id: string, wire: seq<Frame<V>>) {
    wire != [] &&
    (wire[0] == Answer(id) || (!(wire[0].Notification? && wire[0].id == id) && AnswerFirst(id, wire[1..])))
  }

  lemma {:induction false} AnswerFirstAppend<V>(id: string, wire: seq<Frame<V>>, f: Frame<V>)
    ensures AnswerFirst(id, wire) ==> AnswerFirst(id, wire + [f])
    ensures f == Answer(id) && Payloads(id, wire) == [] ==> AnswerFirst(id, wire + [f])
  {
    if wire != [] {
      assert (wire + [f])[1..] == wire[1..] + [f];
      AnswerFirstAppend(id, wire[1..], f);
    }
  }

  /** Everything accepted by `Notify` and not yet with the subscriber, oldest first. */
  ghost function Underway<V>(p: Pipe<V>): seq<V>
    requires p.server.flushed <= |p.server.buffer|
  {
    p.client.queue + InHand(p.client) + Payloads(p.id, p.wire) + Unsent(p.server)
  }

  ghost function InHand<V>(cl: Client<V>): seq<V> {
    if cl.inHand.Some? then [cl.inHand.value] else []
  }

  ghost function Unsent<V>(sv: Server<V>): seq<V>
    requires sv.flushed <= |sv.buffer|
  {
    sv.buffer[sv.flushed..]
  }

  ghost predicate NoAnswer<V>(id: string, wire: seq<Frame<V>>) {
    forall i :: 0 <= i < |wire| ==> wire[i] != Answer(id)
  }

  /** An answer that has been written but not read is ahead of all notifications. */
  ghost predicate AwaitingInv<V>(p: Pipe<V>) {
    var sv, cl := p.server, p.client;
    && sv.flushed <= |sv.buffer|
    && cl.inHand.None? && cl.queue == [] && cl.delivered == [] && !cl.forwarding
    && (sv.answer.NotYet? ==> Payloads(p.id, p.wire) == [] && sv.flushed == 0 && sv.buffer == sv.accepted)
    && (NoAnswer(p.id, p.wire)
        || (sv.answer.Written? && AnswerFirst(p.id, p.wire) && OneAnswer(p.id, p.wire) && Underway(p) == sv.accepted))
  }

  ghost predicate ServerInv<V>(sv: Server<V>) {
    && sv.flushed <= |sv.buffer|
    && (sv.answer.NotYet? ==> sv.mode.Inactive?)
    && (sv.mode.Active? ==> sv.flushed == |sv.buffer|)
    && (sv.mode.Stalled? ==> sv.flushed < |sv.buffer|)
  }

  ghost predicate Inv<V>(p: Pipe<V>) {
    && ServerInv(p.server)
    && |p.client.queue| <= MAX_CLIENT_SUBSCRIPTION_BUFFER
    && match p.client.known
       case Awaiting => AwaitingInv(p)
       case Registered =>
         && NoAnswer(p.id, p.wire) && !p.server.answer.NotYet? && p.client.forwarding
         && p.client.delivered + Underway(p) == p.server.accepted
       case Ended =>
         && NoAnswer(p.id, p.wire) && !p.server.answer.NotYet?
         && p.client.delivered + p.client.queue <= p.server.accepted
  }

  ghost predicate OneAnswer<V>(id: string, wire: seq<Frame<V>>) {
    forall i, j :: 0 <= i < j < |wire| && wire[i] == Answer(id) ==> wire[j] != Answer(id)
  }

  /** A frame that is not this subscription's answer goes out. */
  lemma WireGrows<V>(id: string, wire: seq<Frame<V>>, f: Frame<V>)
    requires f != Answer(id)
    ensures NoAnswer(id, wire) ==> NoAnswer(id, wire + [f])
    ensures AnswerFirst(id, wire) && OneAnswer(id, wire) ==>
              AnswerFirst(id, wire + [f]) && OneAnswer(id, wire + [f])
    ensures Payloads(id, wire + [f]) == Payloads(id, wire) + if f.Notification? && f.id == id then [f.v] else []
  {
    PayloadsAppend(id, wire, f);
    AnswerFirstAppend(id, wire, f);
  }

  /** `Notify` accepts a payload. */
  lemma KeepNotify<V>(p: Pipe<V>, v: V, ok: bool)
    requires Inv(p) && Enabled(p, NotifyStep(v, ok))
    ensures Inv(Apply(p, NotifyStep(v, ok)))
  {
    var p' := Apply(p, NotifyStep(v, ok));
    WireGrows(p.id, p.wire, Notification(p.id, v));
    if p.server.mode.Active? {
      assert ok ==> Underway(p') == Underway(p) + [v];
    } else {
      assert Unsent(p'.server) == Unsent(p.server) + [v];
      assert Underway(p') == Underway(p) + [v];
    }
  }

  /** `activate` writes the next of the payloads kept back. */
  lemma KeepActivateNext<V>(p: Pipe<V>, ok: bool)
    requires Inv(p) && Enabled(p, ActivateNext(ok))
    ensures Inv(Apply(p, ActivateNext(ok)))
  {
    var p' := Apply(p, ActivateNext(ok));
    var v := p.server.buffer[p.server.flushed];
    WireGrows(p.id, p.wire, Notification(p.id, v));
    if ok {
      assert Unsent(p.server) == [v] + Unsent(p'.server);
      assert Underway(p') == Underway(p);
    }
  }

  /** The answer goes out while the notifier still keeps everything back. */
  lemma KeepWriteAnswer<V>(p: Pipe<V>, ok: bool)
    requires Inv(p) && Enabled(p, WriteAnswer(ok))
    ensures Inv(Apply(p, WriteAnswer(ok)))
  {
    var p' := Apply(p, WriteAnswer(ok));
    assert p.client.known.Awaiting?;
    if ok {
      PayloadsAppend(p.id, p.wire, Answer(p.id));
      AnswerFirstAppend(p.id, p.wire, Answer(p.id));
      assert Underway(p') == p.server.accepted;
    } else {
      assert p'.wire == p.wire;
    }
  }

  lemma KeepOtherWrite<V>(p: Pipe<V>, f: Frame<V>)
    requires Inv(p) && Enabled(p, OtherWrite(f))
    ensures Inv(Apply(p, OtherWrite(f)))
  {
    WireGrows(p.id, p.wire, f);
    assert Underway(Apply(p, OtherWrite(f))) == Underway(p);
  }

  /** The loop handles a frame while the answer is awaited: since the answer comes first, no
      notification meets a client that is still going to accept it. */
  lemma KeepReadAwaiting<V>(p: Pipe<V>, stillWaiting: bool)
    requires Inv(p) && Enabled(p, Read(stillWaiting)) && p.client.known.Awaiting?
    ensures Inv(Apply(p, Read(stillWaiting)))
  {
  }

  lemma KeepRead<V>(p: Pipe<V>, stillWaiting: bool)
    requires Inv(p) && Enabled(p, Read(stillWaiting)) && !p.client.known.Awaiting?
    ensures Inv(Apply(p, Read(stillWaiting)))
  {
  }

  lemma KeepHandOver<V>(p: Pipe<V>, decodes: bool)
    requires Inv(p) && Enabled(p, HandOver(decodes))
    ensures Inv(Apply(p, HandOver(decodes)))
  {
  }

  lemma KeepEmit<V>(p: Pipe<V>)
    requires Inv(p) && Enabled(p, Emit)
    ensures Inv(Apply(p, Emit))
  {
  }

  lemma KeepStep<V>(p: Pipe<V>, st: Step<V>)
    requires Inv(p) && Enabled(p, st)
    ensures Inv(Apply(p, st))
  {
    match st
    case NotifyStep(v, ok) => KeepNotify(p, v, ok);
    case WriteAnswer(ok) => KeepWriteAnswer(p, ok);
    case ActivateNext(ok) => KeepActivateNext(p, ok);
    case OtherWrite(f) => KeepOtherWrite(p, f);
    case Read(w) => if p.client.known.Awaiting? { KeepReadAwaiting(p, w); } else { KeepRead(p, w); }
    case HandOver(d) => KeepHandOver(p, d);
    case Emit => KeepEmit(p);
    case _ => assert Apply(p, st).wire == p.wire;
  }

  // ---------------------------------------------------------------------------------------------
  // Runs

  ghost predicate Run<V>(p: Pipe<V>, steps: seq<Step<V>>)
    decreases |steps|
  {
    steps == [] || (Enabled(p, steps[0]) && Run(Apply(p, steps[0]), steps[1..]))
  }

  ghost function Exec<V>(p: Pipe<V>, steps: seq<Step<V>>): Pipe<V>
    requires Run(p, steps)
    decreases |steps|
  {
    if steps == [] then p else Exec(Apply(p, steps[0]), steps[1..])
  }

  lemma {:induction false} RunKeepsInv<V>(p: Pipe<V>, steps: seq<Step<V>>)
    requires Inv(p) && Run(p, steps)
    ensures Inv(Exec(p, steps))
    decreases |steps|
  {
    if steps != [] {
      KeepStep(p, steps[0]);
      RunKeepsInv(Apply(p, steps[0]), steps[1..]);
    }
  }

  /** `activate` without a failing write, as steps. */
  ghost function Activation<V>(n: nat): seq<Step<V>> {
    if n == 0 then [ActivateEnd] else [ActivateNext(true)] + Activation(n - 1)
  }

  /** Uninterrupted, these steps do what `Notifiers.Notifier.Activate` does when it succeeds: what is
      kept back goes out, in order and behind everything written before, and the notifier is active. */
  lemma {:induction false} ActivationIsARun<V>(p: Pipe<V>)
    requires p.server.mode.Activating? && p.server.flushed <= |p.server.buffer|
    ensures var steps := Activation(|p.server.buffer| - p.server.flushed);
            && Run(p, steps)
            && Exec(p, steps) == p.(wire := p.wire + Frames(p.id, p.server.buffer[p.server.flushed..]),
                                    server := p.server.(flushed := |p.server.buffer|, mode := Active))
    decreases |p.server.buffer| - p.server.flushed
  {
    var left := |p.server.buffer| - p.server.flushed;
    var steps := Activation<V>(left);
    if left == 0 {
      assert Exec(Apply(p, ActivateEnd), steps[1..]) == Apply(p, ActivateEnd);
      assert p.wire + Frames(p.id, p.server.buffer[p.server.flushed..]) == p.wire;
    } else {
      var p' := Apply(p, ActivateNext(true));
      assert steps[1..] == Activation(left - 1);
      ActivationIsARun(p');
      assert p'.wire + Frames(p.id, p'.server.buffer[p'.server.flushed..])
          == p.wire + Frames(p.id, p.server.buffer[p.server.flushed..]);
    }
  }

  /** End to end, in every run: as long as an established subscription has not ended, what the
      subscriber has received, followed by what waits in the forwarder, what the loop holds, what is
      on the connection and what the notifier still keeps back, is exactly the sequence of payloads
      that `Notify` accepted.  Nothing is lost, doubled or reordered. */
  lemma EndToEndOrder<V>(id: string, steps: seq<Step<V>>)
    requires Run(Start(id), steps) && Exec(Start(id), steps).client.known.Registered?
    ensures var p := Exec(Start(id), steps);
            && p.server.flushed <= |p.server.buffer|
            && p.client.delivered + Underway(p) == p.server.accepted
            && p.client.delivered <= p.server.accepted
            && |p.client.queue| <= MAX_CLIENT_SUBSCRIPTION_BUFFER
  {
    assert Unsent(Start<V>(id).server) == [];
    RunKeepsInv(Start(id), steps);
  }

  /** In every run, established or not, ended or not: what the subscriber has received is what `Notify`
      accepted first, in order. */
  lemma DeliveredIsPrefix<V>(id: string, steps: seq<Step<V>>)
    requires Run(Start(id), steps)
    ensures Exec(Start(id), steps).client.delivered <= Exec(Start(id), steps).server.accepted
  {
    assert Unsent(Start<V>(id).server) == [];
    RunKeepsInv(Start(id), steps);
  }

  /** No notification is handled before the answer that establishes the subscription. */
  lemma NothingBeforeRegistration<V>(id: string, steps: seq<Step<V>>)
    requires Run(Start(id), steps) && Exec(Start(id), steps).client.known.Awaiting?
    requires !NoAnswer(id, Exec(Start(id), steps).wire)
    ensures var p := Exec(Start(id), steps);
            && AnswerFirst(id, p.wire)
            && p.server.flushed <= |p.server.buffer| && Payloads(id, p.wire) + Unsent(p.server) == p.server.accepted
  {
    RunKeepsInv(Start(id), steps);
    SameId(Start(id), steps);
  }

  lemma {:induction false} SameId<V>(p: Pipe<V>, steps: seq<Step<V>>)
    requires Run(p, steps)
    ensures Exec(p, steps).id == p.id
    decreases |steps|
  {
    if steps != [] {
      SameId(Apply(p, steps[0]), steps[1..]);
    }
  }

  // ---------------------------------------------------------------------------------------------
  // The story of a run, told from its steps

  /** The loop has taken the answer off the connection while the subscribe call still waited. */
  ghost predicate Answered<V>(p: Pipe<V>, steps: seq<Step<V>>)
    requires Run(p, steps)
    decreases |steps|
  {
    steps != [] && ((steps[0] == Read(true) && p.wire[0] == Answer(p.id)) || Answered(Apply(p, steps[0]), steps[1..]))
  }

  /** What ends a subscription: `Unsubscribe` or the handler's close, a value that does not decode, or one
      for which there is no room. */
  ghost predicate Ends<V>(p: Pipe<V>, st: Step<V>) {
    || st.Quit?
    || st == HandOver(false)
    || (st == HandOver(true) && |p.client.queue| == 20000)
  }

  ghost predicate HasEnded<V>(p: Pipe<V>, steps: seq<Step<V>>)
    requires Run(p, steps)
    decreases |steps|
  {
    steps != [] && (Ends(p, steps[0]) || HasEnded(Apply(p, steps[0]), steps[1..]))
  }

  /** The payloads that `Notify` accepts: all of them before `activate` has ended, which keep for later what
      they are given, and then those whose write succeeds. */
  ghost function AcceptedIn<V>(activated: bool, steps: seq<Step<V>>): seq<V>
    decreases |steps|
  {
    if steps == [] then []
    else
      (if steps[0].NotifyStep? && (steps[0].ok || !activated) then [steps[0].v] else [])
      + AcceptedIn(activated || steps[0].ActivateEnd?, steps[1..])
  }

  /** How many values the subscriber's channel has taken. */
  ghost function Emits<V>(steps: seq<Step<V>>): nat {
    if steps == [] then 0 else (if steps[0].Emit? then 1 else 0) + Emits(steps[1..])
  }

  /** The client's state, told by whether the answer has been taken and whether the end has come. */
  ghost function Stage(answered: bool, ended: bool): Known {
    if !answered then Awaiting else if ended then Ended else Registered
  }

  lemma StageStep<V>(p: Pipe<V>, st: Step<V>, answered: bool, ended: bool)
    requires Inv(p) && Enabled(p, st) && p.client.known == Stage(answered, ended) && (ended ==> answered)
    ensures var now := st == Read(true) && p.wire[0] == Answer(p.id);
            && Apply(p, st).client.known == Stage(answered || now, ended || Ends(p, st))
            && (Ends(p, st) ==> answered)
  {
  }

  lemma {:induction false} RunStage<V>(p: Pipe<V>, steps: seq<Step<V>>, answered: bool, ended: bool)
    requires Inv(p) && Run(p, steps) && p.client.known == Stage(answered, ended) && (ended ==> answered)
    ensures Exec(p, steps).client.known == Stage(answered || Answered(p, steps), ended || HasEnded(p, steps))
    ensures HasEnded(p, steps) ==> answered || Answered(p, steps)
    decreases |steps|
  {
    if steps != [] {
      var st := steps[0];
      var now := st == Read(true) && p.wire[0] == Answer(p.id);
      StageStep(p, st, answered, ended);
      KeepStep(p, st);
      RunStage(Apply(p, st), steps[1..], answered || now, ended || Ends(p, st));
    }
  }

  /** In every run, the subscription is established exactly if the loop has taken the answer while the
      call still waited for it; and then it has ended exactly if there was an `Unsubscribe` or close, a
      value that does not decode, or one that found the queue of 20000 full. */
  lemma EstablishedAndEnded<V>(id: string, steps: seq<Step<V>>)
    requires Run(Start(id), steps)
    ensures var known := Exec(Start(id), steps).client.known;
            && (known.Awaiting? <==> !Answered(Start(id), steps))
            && (known.Ended? <==> HasEnded(Start(id), steps))
  {
    assert Unsent(Start<V>(id).server) == [];
    RunStage(Start(id), steps, false, false);
  }

  lemma {:induction false} RunAccepts<V>(p: Pipe<V>, steps: seq<Step<V>>)
    requires Run(p, steps)
    ensures Exec(p, steps).server.accepted == p.server.accepted + AcceptedIn(p.server.mode.Active?, steps)
    decreases |steps|
  {
    if steps != [] {
      RunAccepts(Apply(p, steps[0]), steps[1..]);
    }
  }

  /** In every run, the payloads that count as accepted are those given to `Notify`, in order, but for
      the ones whose write fails after the activation. */
  lemma AcceptedIsNotified<V>(id: string, steps: seq<Step<V>>)
    requires Run(Start(id), steps)
    ensures Exec(Start(id), steps).server.accepted == AcceptedIn(false, steps)
  {
    RunAccepts(Start(id), steps);
  }

  lemma {:induction false} RunEmits<V>(p: Pipe<V>, steps: seq<Step<V>>)
    requires Run(p, steps)
    ensures |Exec(p, steps).client.delivered| == |p.client.delivered| + Emits(steps)
    decreases |steps|
  {
    if steps != [] {
      RunEmits(Apply(p, steps[0]), steps[1..]);
    }
  }

  /** In every run, what the subscriber has received is what was given to `Notify` first (but for failed
      writes): as many payloads as its channel has taken values. */
  lemma DeliveredIsNotified<V>(id: string, steps: seq<Step<V>>)
    requires Run(Start(id), steps)
    ensures Emits(steps) <= |AcceptedIn(false, steps)|
    ensures Exec(Start(id), steps).client.delivered == AcceptedIn(false, steps)[..Emits(steps)]
  {
    DeliveredIsPrefix(id, steps);
    AcceptedIsNotified(id, steps);
    RunEmits(Start(id), steps);
  }

  // ---------------------------------------------------------------------------------------------
  // Everything can be delivered, unless the activation has failed

  /** An established subscription whose notifier has not given up. */
  ghost predicate Flowing<V>(p: Pipe<V>) {
    Inv(p) && p.client.known.Registered? && !p.server.mode.Stalled?
  }

  /** The next step towards the subscriber. */
  ghost function Onward<V>(p: Pipe<V>): Step<V> {
    if p.client.queue != [] then Emit
    else if p.client.inHand.Some? then HandOver(true)
    else if p.wire != [] then Read(true)
    else if p.server.mode.Inactive? then ActivateBegin
    else ActivateNext(true)
  }

  ghost function Distance<V>(p: Pipe<V>): nat
    requires p.server.flushed <= |p.server.buffer|
  {
    |p.client.queue| + 2 * |InHand(p.client)| + 3 * |p.wire| + 4 * |Unsent(p.server)|
  }

  lemma FlowsOn<V>(p: Pipe<V>)
    requires Flowing(p) && (p.client.queue != [] || p.client.inHand.Some? || p.wire != [] || Unsent(p.server) != [])
    ensures Enabled(p, Onward(p))
    ensures var p' := Apply(p, Onward(p));
            && Flowing(p') && p'.server.accepted == p.server.accepted
            && if Onward(p).ActivateBegin? then Distance(p') == Distance(p) && !p'.server.mode.Inactive?
               else Distance(p') < Distance(p) && p'.server.mode.Inactive? == p.server.mode.Inactive?
  {
    KeepStep(p, Onward(p));
  }

  lemma {:induction false} Flows<V>(p: Pipe<V>) returns (more: seq<Step<V>>)
    requires Flowing(p)
    ensures Run(p, more) && Exec(p, more).client.delivered == p.server.accepted
    decreases p.server.mode.Inactive?, Distance(p)
  {
    more := [];
    if p.client.queue != [] || p.client.inHand.Some? || p.wire != [] || Unsent(p.server) != [] {
      var st := Onward(p);
      FlowsOn(p);
      more := Flows(Apply(p, st));
      more := [st] + more;
    }
  }

  /** How much has been delivered, or is past the notifier. */
  ghost function Past<V>(p: Pipe<V>): nat {
    |p.client.delivered| + |p.client.queue| + |InHand(p.client)| + |Payloads(p.id, p.wire)|
  }

  /** A notifier whose activation has failed sends nothing more. */
  lemma StalledStep<V>(p: Pipe<V>, st: Step<V>)
    requires p.server.mode.Stalled? && Enabled(p, st)
    ensures Apply(p, st).server.mode.Stalled? && Past(Apply(p, st)) <= Past(p)
  {
    match st
    case WriteAnswer(_) =>
      assert p.wire + [] == p.wire;
      PayloadsAppend(p.id, p.wire, Answer(p.id));
    case OtherWrite(f) => PayloadsAppend(p.id, p.wire, f);
    case _ =>
  }

  lemma {:induction false} StalledForever<V>(p: Pipe<V>, more: seq<Step<V>>)
    requires p.server.mode.Stalled? && Run(p, more)
    ensures |Exec(p, more).client.delivered| <= Past(p)
    decreases |more|
  {
    if more != [] {
      StalledStep(p, more[0]);
      StalledForever(Apply(p, more[0]), more[1..]);
    }
  }

  /** After these steps the subscriber has everything that had been accepted before them. */
  ghost predicate Delivers<V>(p: Pipe<V>, more: seq<Step<V>>) {
    Run(p, more) && p.server.accepted <= Exec(p, more).client.delivered
  }

  ghost predicate Deliverable<V(!new)>(p: Pipe<V>) {
    exists more :: Delivers(p, more)
  }

  lemma {:induction false} RunStalls<V>(p: Pipe<V>, steps: seq<Step<V>>)
    requires Run(p, steps)
    ensures Exec(p, steps).server.mode.Stalled? <==> p.server.mode.Stalled? || ActivateNext(false) in steps
    decreases |steps|
  {
    if steps != [] {
      RunStalls(Apply(p, steps[0]), steps[1..]);
    }
  }

  /** In every run, while an established subscription has not ended: all payloads accepted so far can
      still be delivered if and only if no write of the activation has failed. */
  lemma DeliverableExactlyIf<V(!new)>(id: string, steps: seq<Step<V>>)
    requires Run(Start(id), steps) && Exec(Start(id), steps).client.known.Registered?
    ensures Deliverable(Exec(Start(id), steps)) <==> ActivateNext(false) !in steps
  {
    var p := Exec(Start(id), steps);
    assert Unsent(Start<V>(id).server) == [];
    RunKeepsInv(Start(id), steps);
    RunStalls(Start(id), steps);
    if p.server.mode.Stalled? {
      forall more | Run(p, more) ensures !Delivers(p, more) {
        StalledForever(p, more);
        assert |p.server.accepted| == Past(p) + |Unsent(p.server)|;
      }
    } else {
      var more := Flows(p);
      assert Delivers(p, more);
    }
  }

  lemma Prepend<V>(p: Pipe<V>, st: Step<V>, more: seq<Step<V>>)
    requires Enabled(p, st) && Run(Apply(p, st), more)
    ensures Run(p, [st] + more) && Exec(p, [st] + more) == Exec(Apply(p, st), more)
  {
    assert ([st] + more)[1..] == more;
  }

  /** It happens: a payload reaches the subscriber. */
  lemma OneIsDelivered<V>(id: string, v: V) returns (steps: seq<Step<V>>)
    ensures Run(Start(id), steps) && Exec(Start(id), steps).client.delivered == [v]
  {
    var s1 := Apply(Start<V>(id), WriteAnswer(true));
    var s2 := Apply(s1, NotifyStep(v, true));
    var s3 := Apply(s2, Read(true));
    assert Unsent(Start<V>(id).server) == [];
    KeepStep(Start<V>(id), WriteAnswer(true));
    KeepStep(s1, NotifyStep(v, true));
    KeepStep(s2, Read(true));
    var more := Flows(s3);
    assert s3.server.accepted == [v];
    Prepend(s2, Read(true), more);
    Prepend(s1, NotifyStep(v, true), [Read(true)] + more);
    Prepend(Start(id), WriteAnswer(true), [NotifyStep(v, true)] + ([Read(true)] + more));
    steps := [WriteAnswer(true)] + ([NotifyStep(v, true)] + ([Read(true)] + more));
  }

  /** In every run, the loop is never caught in `deliver`: the forwarder can take what it holds, or it can
      drop that because the subscription has ended. */
  lemma DeliverReturns<V>(id: string, steps: seq<Step<V>>)
    requires Run(Start(id), steps) && Exec(Start(id), steps).client.inHand.Some?
    ensures var p := Exec(Start(id), steps); var st := if p.client.known.Ended? then DropInHand else HandOver(true);
            Enabled(p, st) && Apply(p, st).client.inHand.None?
  {
    assert Unsent(Start<V>(id).server) == [];
    RunKeepsInv(Start(id), steps);
  }

  /** Once it has ended, the forwarder can stop; then nothing more is delivered. */
  lemma ForwarderStops<V>(id: string, steps: seq<Step<V>>, more: seq<Step<V>>)
    requires Run(Start(id), steps) && Exec(Start(id), steps).client.known.Ended?
    ensures var p := Exec(Start(id), steps);
            && (p.client.forwarding ==> Enabled(p, ForwarderQuits) && !Apply(p, ForwarderQuits).client.forwarding)
            && (!p.client.forwarding && Run(p, more) ==> Exec(p, more).client.delivered == p.client.delivered)
  {
    assert Unsent(Start<V>(id).server) == [];
    RunKeepsInv(Start(id), steps);
    if !Exec(Start(id), steps).client.forwarding && Run(Exec(Start(id), steps), more) {
      StoppedForever(Exec(Start(id), steps), more);
    }
  }

  lemma {:induction false} StoppedForever<V>(p: Pipe<V>, more: seq<Step<V>>)
    requires p.client.known.Ended? && !p.client.forwarding && Run(p, more)
    ensures Exec(p, more).client.delivered == p.client.delivered
    decreases |more|
  {
    if more != [] {
      StoppedForever(Apply(p, more[0]), more[1..]);
    }
  }
}
