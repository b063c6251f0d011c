/** Go channels as data.  A channel remembers everything ever sent on it, how much of that has been
    received, and every misuse: the operations that would panic or block are recorded, not excluded,
    so that their absence is something to prove. */
module Channels {

  datatype Fault = ClosedTwice | SentAfterClose | SendBlocked

  datatype Chan<T> = Chan(cap: nat, sent: seq<T>, taken: nat, closed: bool, faults: seq<Fault>)
  {
    /** A send on a channel nobody is waiting on. */
    function Send(v: T): Chan<T> {
      if closed then this.(faults := faults + [SentAfterClose])
      else if taken + cap <= |sent| then this.(faults := faults + [SendBlocked])
      else this.(sent := sent + [v])
    }

    function Close(): Chan<T> {
      if closed then this.(faults := faults + [ClosedTwice]) else this.(closed := true)
    }

    /** Receiving is possible when a value is queued or the channel is closed. */
    predicate CanReceive() {
      taken < |sent| || closed
    }

    function Receive(): Chan<T> {
      if taken < |sent| then this.(taken := taken + 1) else this
    }

    /** No send or close so far would have panicked or blocked. */
    predicate Healthy() {
      taken <= |sent| <= taken + cap && faults == []
    }
  }

  function Make<T>(cap: nat): Chan<T> {
    Chan(cap, [], 0, false, [])
  }
}
