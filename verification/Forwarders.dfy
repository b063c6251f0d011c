/** `ClientSubscription.forward`: the pump between the dispatch loop and the subscriber's channel. */
module Forwarders {
  import opened Basics

  const MAX_CLIENT_SUBSCRIPTION_BUFFER: nat := 20000

  /** What `reflect.Select` chooses: quit, a receive on `in` (with what it decodes to), or the send of
      the first queued value, which is on offer only while there is one. */
  datatype Choice<V> = ChoseQuit | ChoseIn(v: Option<V>) | ChoseSend

  datatype Outcome = Running | Stopped(unsubscribeServer: bool, err: Option<Error>)

  const DECODE_ERROR := ErrOther("json: cannot unmarshal")

  /** The values received in the course of some choices. */
  function Received<V>(choices: seq<Choice<V>>): seq<V> {
    if choices == [] then []
    else
      var last := choices[|choices| - 1];
      Received(choices[..|choices| - 1]) + if last.ChoseIn? && last.v.Some? then [last.v.value] else []
  }

  /** How many of the choices took a value off the queue: each send does, if one is there. */
  function Taken<V>(choices: seq<Choice<V>>): (n: nat)
    ensures n <= |Received(choices)|
  {
    if choices == [] then 0
    else
      var init := choices[..|choices| - 1];
      Taken(init) + if choices[|choices| - 1].ChoseSend? && Taken(init) < |Received(init)| then 1 else 0
  }

  /** Neither quit nor a value that does not decode. */
  predicate Plain<V>(c: Choice<V>) {
    c.ChoseSend? || (c.ChoseIn? && c.v.Some?)
  }

  /** What the forwarder holds: what it has emitted, and its queue. */
  datatype Pump<V> = Pump(emitted: seq<V>, queue: seq<V>)

  /** One turn of the loop; `None` ends it. */
  function Turn<V>(p: Pump<V>, c: Choice<V>): Option<Pump<V>> {
    match c
    case ChoseQuit => None
    case ChoseIn(None) => None
    case ChoseIn(Some(v)) =>
      if |p.queue| == MAX_CLIENT_SUBSCRIPTION_BUFFER then None else Some(p.(queue := p.queue + [v]))
    case ChoseSend => Some(if p.queue == [] then p else Pump(p.emitted + [p.queue[0]], p.queue[1..]))
  }

  /** The choice ends the loop, with this outcome. */
  ghost predicate Stops<V>(p: Pump<V>, c: Choice<V>, r: Outcome) {
    && Turn(p, c).None?
    && match c
       case ChoseQuit => r == Stopped(false, None)
       case ChoseIn(None) => r == Stopped(true, Some(DECODE_ERROR))
       case ChoseIn(Some(_)) =>
         r == Stopped(true, Some(ErrSubscriptionQueueOverflow)) && |p.queue| == MAX_CLIENT_SUBSCRIPTION_BUFFER
       case ChoseSend => false
  }

  function Turns<V>(choices: seq<Choice<V>>): Option<Pump<V>> {
    if choices == [] then Some(Pump([], []))
    else
      match Turns(choices[..|choices| - 1])
      case None => None
      case Some(p) => Turn(p, choices[|choices| - 1])
  }

  /** Runs the loop on the choices that the environment makes: `n` of them are used up.  What has been
      emitted and what is queued is always what was received, in order, and the queue is bounded. */
  method Forward<V>(choices: seq<Choice<V>>) returns (emitted: seq<V>, queue: seq<V>, n: nat, r: Outcome)
    ensures r.Running? ==> Turns(choices) == Some(Pump(emitted, queue))
    ensures r.Stopped? ==> 0 < n <= |choices| && Turns(choices[..n - 1]) == Some(Pump(emitted, queue))
    ensures n <= |choices| && |queue| <= MAX_CLIENT_SUBSCRIPTION_BUFFER
    ensures r.Running? ==> n == |choices| && emitted + queue == Received(choices) && |emitted| == Taken(choices)
    ensures r.Stopped? ==>
              && emitted + queue == Received(choices[..n - 1]) && |emitted| == Taken(choices[..n - 1])
              && Stops(Pump(emitted, queue), choices[n - 1], r)
    ensures forall c :: c in (if r.Running? then choices else choices[..n - 1]) ==> Plain(c)
  {
    emitted, queue, n, r := [], [], 0, Running;
    while n < |choices| && r.Running?
      invariant n <= |choices|
      invariant r.Running? ==> Turns(choices[..n]) == Some(Pump(emitted, queue))
      invariant r.Stopped? ==> n > 0 && Turns(choices[..n - 1]) == Some(Pump(emitted, queue))
                               && Stops(Pump(emitted, queue), choices[n - 1], r)
      decreases |choices| - n
    {
      assert choices[..n + 1][..n] == choices[..n];
      var chosen := choices[n];
      n := n + 1;
      match chosen {
        case ChoseQuit =>
          r := Stopped(false, None);
        case ChoseIn(v) =>
          if v.None? {
            r := Stopped(true, Some(DECODE_ERROR));
          } else if |queue| == MAX_CLIENT_SUBSCRIPTION_BUFFER {
            r := Stopped(true, Some(ErrSubscriptionQueueOverflow));
          } else {
            queue := queue + [v.value];
          }
        case ChoseSend =>
          if queue != [] {
            emitted, queue := emitted + [queue[0]], queue[1..];
          }
      }
    }
    assert choices[..|choices|] == choices;
    TurnsConserve(if r.Running? then choices else choices[..n - 1]);
  }

  /** As long as the loop goes on, nothing is lost, doubled or reordered, every send takes one value off
      the queue, and the queue is bounded. */
  lemma {:induction false} TurnsConserve<V>(choices: seq<Choice<V>>)
    requires Turns(choices).Some?
    ensures var p := Turns(choices).value;
            && p.emitted + p.queue == Received(choices) && |p.emitted| == Taken(choices)
            && |p.queue| <= MAX_CLIENT_SUBSCRIPTION_BUFFER
    ensures forall c :: c in choices ==> Plain(c)
  {
    if choices != [] {
      var before := choices[..|choices| - 1];
      TurnsConserve(before);
      TurnConserves(Turns(before).value, choices[|choices| - 1]);
      assert choices == before + [choices[|choices| - 1]];
    }
  }

  lemma TurnConserves<V>(p: Pump<V>, c: Choice<V>)
    requires Turn(p, c).Some? && |p.queue| <= MAX_CLIENT_SUBSCRIPTION_BUFFER
    ensures var p' := Turn(p, c).value;
            && p'.emitted + p'.queue == p.emitted + p.queue + (if c.ChoseIn? then [c.v.value] else [])
            && |p'.emitted| == |p.emitted| + (if c.ChoseSend? && p.queue != [] then 1 else 0)
            && |p'.queue| <= MAX_CLIENT_SUBSCRIPTION_BUFFER
    ensures Plain(c)
  {
    if c.ChoseSend? && p.queue != [] {
      assert p.queue == [p.queue[0]] + p.queue[1..];
    }
  }
}
