/** `BatchCallContext`: assigning the responses of a batch to its elements. */
module BatchCalls {
  import opened Basics
  import opened Ids
  import opened RequestTable

  datatype BatchElem = BatchElem(result: Option<string>, error: Option<Error>)

  /** `was` and `e` are an element before and after a response: an error of the server, a missing result
      and a result that cannot be decoded are recorded, and nothing else changes; any other result is
      stored, and there is no error (`unmarshal` is the outcome of decoding into the target). */
  ghost predicate Stored(e: BatchElem, was: BatchElem, m: Response, unmarshal: string -> Option<Error>) {
    && (m.error.Some? ==> e.error == m.error && e.result == was.result)
    && (m.error.None? && m.result == "" ==> e.error == Some(ErrNoResult) && e.result == was.result)
    && (m.error.None? && m.result != "" && unmarshal(m.result).Some? ==>
          e.error == unmarshal(m.result) && e.result == was.result)
    && (m.error.None? && m.result != "" && unmarshal(m.result).None? ==>
          e.error == None && e.result == Some(m.result))
  }

  /** Element `i` has been given the response that carries its id, if that is among `ms`. */
  ghost predicate Assigned(e: BatchElem, was: BatchElem, id: Id, ms: seq<Response>,
                           unmarshal: string -> Option<Error>)
  {
    && (forall k :: 0 <= k < |ms| && ms[k].id == id ==> Stored(e, was, ms[k], unmarshal))
    && ((forall k :: 0 <= k < |ms| ==> ms[k].id != id) ==> e == was)
  }

  ghost predicate AllAssigned(b: seq<BatchElem>, was: seq<BatchElem>, ids: seq<Id>, ms: seq<Response>,
                              unmarshal: string -> Option<Error>)
  {
    |b| == |was| == |ids| && forall i :: 0 <= i < |ids| ==> Assigned(b[i], was[i], ids[i], ms, unmarshal)
  }

  ghost predicate AnsweredBy(ms: seq<Response>, id: Id) {
    exists k :: 0 <= k < |ms| && ms[k].id == id
  }

  /** Every id has its response. */
  ghost predicate EachAnswered(ids: seq<Id>, ms: seq<Response>) {
    forall id :: id in ids ==> AnsweredBy(ms, id)
  }

  /** How many waits succeed, if `failure` says which one returns an error. */
  function Waits(failure: Option<(nat, Error)>, n: nat): nat {
    if failure.Some? && failure.value.0 < n then failure.value.0 else n
  }

  /** `arrivals` carry ids of the batch, each at most once, and are as many as the waits that succeed. */
  ghost predicate Feeds(ids: seq<Id>, arrivals: seq<Response>, failure: Option<(nat, Error)>) {
    Distinct(ids) && AnswersTo(ids, arrivals) && Waits(failure, |ids|) <= |arrivals|
  }

  /** `arrivals` is what comes out of `op.resp` (`RequestHistory.BatchIsFed`); `failure` says which wait, if
      any, returns an error.  The search for the element never comes up empty, and if no error is returned
      every element has been given exactly its own response. */
  method BatchCallContext(b: array<BatchElem>, ids: seq<Id>, sendErr: Option<Error>, arrivals: seq<Response>,
                          failure: Option<(nat, Error)>, unmarshal: string -> Option<Error>)
    returns (err: Option<Error>, n: nat)
    requires b.Length == |ids| && Feeds(ids, arrivals, failure)
    modifies b
    ensures sendErr.Some? ==> err == sendErr && n == 0
    ensures sendErr.None? ==> n == Waits(failure, |ids|)
    ensures sendErr.None? ==>
              err == if failure.Some? && failure.value.0 < |ids| then Some(failure.value.1) else None
    ensures n <= |arrivals|
    ensures AllAssigned(b[..], old(b[..]), ids, arrivals[..n], unmarshal)
    ensures forall i, k :: 0 <= i < |ids| && 0 <= k < n && arrivals[k].id == ids[i] ==>
              var m, refusal := arrivals[k], unmarshal(arrivals[k].result);
              if m.error.Some? then b[i] == BatchElem(old(b[i]).result, m.error)
              else if m.result == "" then b[i] == BatchElem(old(b[i]).result, Some(ErrNoResult))
              else if refusal.Some? then b[i] == BatchElem(old(b[i]).result, refusal)
              else b[i] == BatchElem(Some(m.result), None)
    ensures err.None? ==> n == |arrivals| && EachAnswered(ids, arrivals)
  {
    err, n := sendErr, 0;
    while n < b.Length && err.None?
      invariant n <= Waits(failure, |ids|)
      invariant err == sendErr && (err.Some? ==> n == 0)
      invariant AllAssigned(b[..], old(b[..]), ids, arrivals[..n], unmarshal)
      decreases b.Length - n
    {
      if failure.Some? && failure.value.0 == n {
        err := Some(failure.value.1);
        break;
      }
      var resp := arrivals[n];
      var i := FindElem(ids, resp.id);
      ghost var before := b[..];
      if resp.error.Some? {
        b[i] := b[i].(error := resp.error);
      } else if resp.result == "" {
        b[i] := b[i].(error := Some(ErrNoResult));
      } else {
        var refusal := unmarshal(resp.result);
        b[i] := BatchElem(if refusal.None? then Some(resp.result) else b[i].result, refusal);
      }
      assert b[..] == before[i := b[i]];
      AssignNext(before, old(b[..]), ids, arrivals, n, i, b[i], unmarshal);
      n := n + 1;
    }
    if err.None? {
      EveryIdAnswered(ids, arrivals);
    }
    forall i, k | 0 <= i < |ids| && 0 <= k < n && arrivals[k].id == ids[i]
      ensures Stored(b[i], old(b[i]), arrivals[k], unmarshal)
    {
      assert arrivals[..n][k] == arrivals[k] && Assigned(b[..][i], old(b[..])[i], ids[i], arrivals[..n], unmarshal);
    }
  }

  /** The search for the element that a response belongs to. */
  method FindElem(ids: seq<Id>, id: Id) returns (i: nat)
    requires id in ids
    ensures i < |ids| && ids[i] == id
  {
    i := 0;
    while ids[i] != id
      invariant i < |ids| && id in ids[i..]
      decreases |ids| - i
    {
      i := i + 1;
    }
  }

  /** The next arrival is the first for its element, and concerns no other. */
  lemma AssignNext(b: seq<BatchElem>, was: seq<BatchElem>, ids: seq<Id>, arrivals: seq<Response>, n: nat, i: nat,
                   e: BatchElem, unmarshal: string -> Option<Error>)
    requires Distinct(ids) && AnswersTo(ids, arrivals) && n < |arrivals| && i < |ids| && ids[i] == arrivals[n].id
    requires AllAssigned(b, was, ids, arrivals[..n], unmarshal) && Stored(e, b[i], arrivals[n], unmarshal)
    ensures AllAssigned(b[i := e], was, ids, arrivals[..n + 1], unmarshal)
  {
  }

  /** As many different answers as ids: each id has one. */
  lemma EveryIdAnswered(ids: seq<Id>, arrivals: seq<Response>)
    requires Distinct(ids) && AnswersTo(ids, arrivals) && |arrivals| >= |ids|
    ensures |arrivals| == |ids| && EachAnswered(ids, arrivals)
  {
    var got := seq(|arrivals|, k requires 0 <= k < |arrivals| => arrivals[k].id);
    assert forall k :: 0 <= k < |got| ==> got[k] == arrivals[k].id;
    assert Distinct(got);
    DistinctBound(got, ids);
    forall id | id in ids ensures AnsweredBy(arrivals, id) {
      var k :| 0 <= k < |got| && got[k] == id;
      assert arrivals[k].id == id;
    }
  }
}
