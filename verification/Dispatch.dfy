/** The variables of the client's dispatch loop, and what each case of its `select` does to them. */
module Dispatch {
  import opened Basics
  import opened RequestTable

  /** `table` is the current handler's; `lockFree` says that the loop listens on `reqInit`. */
  datatype Loop<R> = Loop(table: Table<R>, lastOp: Option<R>, lockFree: bool, reading: bool)
  {
    ghost predicate Closed() {
      && table.Closed()
      && (lastOp.Some? ==> lastOp.value in table.ops)
    }
  }

  ghost function OnRead<R>(d: Loop<R>, ms: seq<Response>): Loop<R>
    requires d.Closed()
  {
    d.(table := RespondAll(d.table, ms))
  }

  ghost function OnReadErr<R>(d: Loop<R>, e: Error): Loop<R> {
    d.(table := CancelAll(d.table, Some(e), d.lastOp), reading := false)
  }

  /** First half of `reconnected` when a reader is still live: the old handler is closed. */
  ghost function OnSwapOut<R>(d: Loop<R>): Loop<R> {
    d.(table := CancelAll(d.table, Some(ErrClientReconnected), d.lastOp))
  }

  /** Second half: a fresh handler, with the in-flight request registered on it. */
  ghost function OnSwapIn<R>(d: Loop<R>): Loop<R>
    requires d.Closed() && d.lastOp.Some?
  {
    d.(table := Add(d.table.(respWait := map[]), d.lastOp.value), reading := true)
  }

  ghost function OnReqInit<R>(d: Loop<R>, r: R): Loop<R>
    requires r in d.table.ops
  {
    d.(table := Add(d.table, r), lastOp := Some(r), lockFree := false)
  }

  ghost function OnReqSent<R>(d: Loop<R>, e: Option<Error>): Loop<R>
    requires d.Closed() && d.lastOp.Some?
  {
    d.(table := if e.Some? then Remove(d.table, d.lastOp.value) else d.table, lastOp := None, lockFree := true)
  }

  ghost function OnTimeout<R>(d: Loop<R>, r: R): Loop<R>
    requires r in d.table.ops
  {
    d.(table := Remove(d.table, r))
  }

  /** The deferred function of the loop: pending requests are cancelled only if a reader is live. */
  ghost function OnQuit<R>(d: Loop<R>): Loop<R> {
    if d.reading then d.(table := CancelAll(d.table, Some(ErrClientQuit), None)) else d
  }
}
