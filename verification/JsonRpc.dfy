/** JSON-RPC messages, their classification, and the answers to a batch (sections 4.1, 5 and 6 of the
    JSON-RPC 2.0 Specification). */
module JsonRpc {
  import opened Basics

  const NOTIFICATION_METHOD_SUFFIX := "_subscription"

  const INVALID_REQUEST: int := -32600

  const NULL := "null"

  datatype RpcError = RpcError(code: int, message: string)

  /** The raw parts of a message; `None` is a part that is not there. */
  datatype Message = Message(id: Option<string>, name: string, params: Option<string>, error: Option<RpcError>,
                             result: Option<string>)
  {
    predicate IsNotification() {
      id.None? && name != ""
    }

    predicate HasValidID() {
      id.Some? && |id.value| > 0 && id.value[0] != '{' && id.value[0] != '['
    }

    predicate IsCall() {
      HasValidID() && name != ""
    }

    predicate IsResponse() {
      HasValidID() && name == "" && params.None? && (result.Some? || error.Some?)
    }

    function ErrorResponse(e: RpcError): Message {
      ErrorMessage(e).(id := id)
    }

    function Respond(enc: string): Message {
      Message(id, "", None, None, Some(enc))
    }
  }

  function ErrorMessage(e: RpcError): Message {
    Message(Some(NULL), "", None, Some(e), None)
  }

  /** What serving a call comes to: the encoded result, or an error (which includes unknown methods,
      bad parameters and results that cannot be encoded). */
  datatype Served = Returned(enc: string) | Failed(e: RpcError)

  /** Messages that are dealt with at once: responses and subscription notifications. */
  predicate Immediate(m: Message) {
    if m.IsNotification() then HasSuffix(m.name, NOTIFICATION_METHOD_SUFFIX) else m.IsResponse()
  }

  function HandleCall(m: Message, served: Served): Message {
    match served
    case Returned(enc) => m.Respond(enc)
    case Failed(e) => m.ErrorResponse(e)
  }

  /** Of the messages that are not dealt with at once, those for which a method is looked up and called. */
  predicate Calls(m: Message) {
    m.IsNotification() || m.IsCall()
  }

  function HandleCallMsg(m: Message, served: Served): Option<Message> {
    if m.IsNotification() then None
    else if m.IsCall() then Some(HandleCall(m, served))
    else if m.HasValidID() then Some(m.ErrorResponse(RpcError(INVALID_REQUEST, "invalid request")))
    else Some(ErrorMessage(RpcError(INVALID_REQUEST, "invalid request")))
  }

  /** What goes out on the connection. */
  datatype Written = Nothing | One(m: Message) | Array(ms: seq<Message>)

  // ---------------------------------------------------------------------------------------------
  // The standard's view

  /** There is an id, and it is neither an object nor an array. */
  predicate Identified(m: Message) {
    m.id.Some? && m.id.value != "" && m.id.value[0] != '{' && m.id.value[0] != '['
  }

  predicate Notification(m: Message) {
    m.id == None && m.name != ""
  }

  predicate Request(m: Message) {
    Identified(m) && m.name != ""
  }

  predicate ResponseObject(m: Message) {
    Identified(m) && m.name == "" && m.params == None && (m.result != None || m.error != None)
  }

  /** A message that calls for an answer: anything but a notification and a response. */
  predicate NeedsAnswer(m: Message) {
    !Notification(m) && !ResponseObject(m)
  }

  /** What a server sends about a subscription. */
  ghost predicate SubscriptionNotice(m: Message) {
    Notification(m) && exists p :: m.name == p + "_subscription"
  }

  /** A message that makes the server call a method: a request, or a notification of another kind. */
  ghost predicate CallsMethod(m: Message) {
    Request(m) || (Notification(m) && !SubscriptionNotice(m))
  }

  /** A message for the client's side of the connection. */
  ghost predicate ForClient(m: Message) {
    ResponseObject(m) || SubscriptionNotice(m)
  }

  /** A proper response object for `m`: the request's id, null if that could not be determined;
      either a result or an error; Invalid Request (-32600) for what is not a request. */
  predicate IsAnswerTo(a: Message, m: Message, served: Served) {
    && a.id == (if Identified(m) then m.id else Some("null"))
    && a.name == "" && a.params == None
    && (a.result == None <==> a.error != None)
    && (Request(m) ==>
          if served.Returned? then a.result == Some(served.enc) else a.error == Some(served.e))
    && (!Request(m) ==> a.error != None && a.error.value.code == -32600)
  }

  ghost predicate Ascending(s: seq<nat>) {
    forall j, k :: 0 <= j < k < |s| ==> s[j] < s[k]
  }

  /** `at` lists the positions of the messages of a kind, in order. */
  ghost predicate Lists(msgs: seq<Message>, at: seq<nat>, kind: Message -> bool) {
    && Ascending(at)
    && (forall j :: 0 <= j < |at| ==> at[j] < |msgs| && kind(msgs[at[j]]))
    && (forall i :: 0 <= i < |msgs| && kind(msgs[i]) ==> i in at)
  }

  ghost predicate AnswerPositions(msgs: seq<Message>, at: seq<nat>) {
    Lists(msgs, at, NeedsAnswer)
  }

  /** Section 6: one answer for each message that needs one, in this case in the order of the batch;
      nothing at all if there is none; a single error object for an empty batch. */
  ghost predicate IsBatchReply(msgs: seq<Message>, serve: nat -> Served, w: Written) {
    if msgs == [] then w.One? && w.m.id == Some("null") && w.m.error.Some? && w.m.error.value.code == -32600
    else exists at: seq<nat> :: AnswerPositions(msgs, at) && RepliesAt(msgs, serve, at, w)
  }

  ghost predicate RepliesAt(msgs: seq<Message>, serve: nat -> Served, at: seq<nat>, w: Written)
    requires forall j :: 0 <= j < |at| ==> at[j] < |msgs|
  {
    if at == [] then w.Nothing? else w.Array? && Answers(msgs, serve, at, w.ms)
  }

  ghost predicate Answers(msgs: seq<Message>, serve: nat -> Served, at: seq<nat>, answers: seq<Message>) {
    && |answers| == |at|
    && forall j :: 0 <= j < |at| ==> at[j] < |msgs| && IsAnswerTo(answers[j], msgs[at[j]], serve(at[j]))
  }

  lemma CallMsgAnswers(m: Message, served: Served)
    requires !Immediate(m)
    ensures HandleCallMsg(m, served).Some? <==> NeedsAnswer(m)
    ensures NeedsAnswer(m) ==> IsAnswerTo(HandleCallMsg(m, served).value, m, served)
    ensures Calls(m) <==> CallsMethod(m)
  {
  }

  // ---------------------------------------------------------------------------------------------
  // Reading: a JSON null becomes a nil message

  /** A JSON value where a message should be: null, or one that decodes to `m` (the zero message if it
      is no JSON-RPC message). */
  datatype Element = NullText | Text(m: Message)

  /** What `readBatch` finds on the connection. */
  datatype Raw = Single(e: Element) | Batch(es: seq<Element>)
  {
    ghost predicate HasNull() {
      match this
      case Single(e) => e.NullText?
      case Batch(es) => NullText in es
    }
  }

  /** `None` is the nil pointer that decoding a null leaves. */
  function Decoded(e: Element): Option<Message> {
    match e
    case NullText => None
    case Text(m) => Some(m)
  }

  method ParseMessage(raw: Raw) returns (msgs: seq<Option<Message>>, batch: bool)
    ensures batch == raw.Batch?
    ensures raw.Single? ==> msgs == [Decoded(raw.e)]
    ensures raw.Batch? ==> |msgs| == |raw.es| && forall i :: 0 <= i < |msgs| ==> msgs[i] == Decoded(raw.es[i])
    ensures raw == Single(NullText) ==> msgs == [None]
    ensures raw.Single? && raw.e.Text? ==> msgs == [Some(raw.e.m)]
    ensures raw.Batch? ==> forall i :: 0 <= i < |msgs| ==>
              msgs[i] == if raw.es[i].NullText? then None else Some(raw.es[i].m)
  {
    if raw.Single? {
      return [Decoded(raw.e)], false;
    }
    batch, msgs := true, [];
    while |msgs| < |raw.es|
      invariant |msgs| <= |raw.es|
      invariant forall i :: 0 <= i < |msgs| ==> msgs[i] == Decoded(raw.es[i])
    {
      msgs := msgs + [Decoded(raw.es[|msgs|])];
    }
  }

  // ---------------------------------------------------------------------------------------------
  // handleMsg and handleBatch

  /** The loop has dereferenced the nil message at `at`, which ends the process; or nothing of the
      kind: `w` goes out on the connection, the messages at `called` have made the server call a method,
      and those at `passed` have been handed to the client's side, each in that order. */
  datatype Outcome = NilDereferenced(at: nat) | Wrote(w: Written, called: seq<nat>, passed: seq<nat>)

  /** The first `n` messages are not nil. */
  ghost predicate Present(msgs: seq<Option<Message>>, n: nat) {
    n <= |msgs| && forall i :: 0 <= i < n ==> msgs[i].Some?
  }

  function Messages(msgs: seq<Option<Message>>): (ms: seq<Message>)
    requires Present(msgs, |msgs|)
    ensures |ms| == |msgs| && forall i :: 0 <= i < |ms| ==> ms[i] == msgs[i].value
  {
    seq(|msgs|, i requires 0 <= i < |msgs| && Present(msgs, |msgs|) => msgs[i].value)
  }

  /** What handling a batch comes to: a crash at the first nil message, if there is one, and otherwise
      the reply that the standard asks for. */
  ghost predicate IsBatchOutcome(msgs: seq<Option<Message>>, serve: nat -> Served, r: Outcome) {
    && (r.NilDereferenced? <==> None in msgs)
    && (r.NilDereferenced? ==> r.at < |msgs| && msgs[r.at].None? && Present(msgs, r.at))
    && (r.Wrote? ==>
          && Present(msgs, |msgs|) && IsBatchReply(Messages(msgs), serve, r.w)
          && Lists(Messages(msgs), r.called, CallsMethod) && Lists(Messages(msgs), r.passed, ForClient))
  }

  ghost predicate IsMsgOutcome(msg: Option<Message>, served: Served, r: Outcome) {
    match msg
    case None => r == NilDereferenced(0)
    case Some(m) =>
      && r.Wrote?
      && (if NeedsAnswer(m) then r.w.One? && IsAnswerTo(r.w.m, m, served) else r.w.Nothing?)
      && Lists([m], r.called, CallsMethod) && Lists([m], r.passed, ForClient)
  }

  ghost predicate IsOutcome(raw: Raw, serve: nat -> Served, r: Outcome) {
    match raw
    case Single(e) => IsMsgOutcome(Decoded(e), serve(0), r)
    case Batch(es) => IsBatchOutcome(seq(|es|, i requires 0 <= i < |es| => Decoded(es[i])), serve, r)
  }

  /** The read case of the loop, for one message or batch. */
  method OnRead(raw: Raw, serve: nat -> Served) returns (r: Outcome)
    ensures IsOutcome(raw, serve, r)
    ensures r.NilDereferenced? <==> raw.HasNull()
  {
    var msgs, batch := ParseMessage(raw);
    if batch {
      r := HandleBatch(msgs, serve);
      assert msgs == seq(|raw.es|, i requires 0 <= i < |raw.es| => Decoded(raw.es[i]));
      NullIsNil(raw.es, msgs);
    } else {
      r := HandleMsg(msgs[0], serve(0));
    }
  }

  lemma NullIsNil(es: seq<Element>, msgs: seq<Option<Message>>)
    requires |es| == |msgs| && forall i :: 0 <= i < |es| ==> msgs[i] == Decoded(es[i])
    ensures None in msgs <==> NullText in es
  {
    if NullText in es {
      var i :| 0 <= i < |es| && es[i] == NullText;
      assert msgs[i].None?;
    }
    if None in msgs {
      var i :| 0 <= i < |msgs| && msgs[i] == None;
      assert es[i].NullText?;
    }
  }

  /** At `[null]`: the standard asks for one Invalid Request object with a null id, since what is not a
      request object is to be answered by one; the code crashes. */
  lemma NullCrashes(serve: nat -> Served, r: Outcome)
    requires IsOutcome(Batch([NullText]), serve, r)
    ensures r == NilDereferenced(0)
    ensures IsBatchReply([Message(None, "", None, None, None)], serve,
                         Array([ErrorMessage(RpcError(INVALID_REQUEST, "invalid request"))]))
  {
    var m := Message(None, "", None, None, None);
    var answer := ErrorMessage(RpcError(INVALID_REQUEST, "invalid request"));
    assert [Decoded(NullText)] == seq(1, i requires 0 <= i < 1 => Decoded([NullText][i]));
    assert None in [Decoded(NullText)];
    assert AnswerPositions([m], [0]) && RepliesAt([m], serve, [0], Array([answer]));
  }

  method HandleMsg(msg: Option<Message>, served: Served) returns (r: Outcome)
    ensures IsMsgOutcome(msg, served, r)
  {
    if msg.None? {
      return NilDereferenced(0);
    }
    if Immediate(msg.value) {
      return Wrote(Nothing, [], [0]);
    }
    CallMsgAnswers(msg.value, served);
    var answer := HandleCallMsg(msg.value, served);
    r := Wrote(if answer.Some? then One(answer.value) else Nothing, if Calls(msg.value) then [0] else [], []);
  }

  /** `serve(i)` is what serving the message at position `i` comes to. */
  method HandleBatch(msgs: seq<Option<Message>>, serve: nat -> Served) returns (r: Outcome)
    ensures IsBatchOutcome(msgs, serve, r)
  {
    if |msgs| == 0 {
      return Wrote(One(ErrorMessage(RpcError(INVALID_REQUEST, "empty batch"))), [], []);
    }
    var calls: seq<nat> := [];
    var passed: seq<nat> := [];
    var i := 0;
    while i < |msgs|
      invariant 0 <= i <= |msgs| && Present(msgs, i)
      invariant Ascending(calls) && Ascending(passed)
      invariant forall j :: 0 <= j < |passed| ==> passed[j] < i && Immediate(msgs[passed[j]].value)
      invariant forall k :: 0 <= k < i && Immediate(msgs[k].value) ==> k in passed
      invariant forall j :: 0 <= j < |calls| ==> calls[j] < i && !Immediate(msgs[calls[j]].value)
      invariant forall k :: 0 <= k < i && !Immediate(msgs[k].value) ==> k in calls
    {
      if msgs[i].None? {
        return NilDereferenced(i);
      }
      if Immediate(msgs[i].value) {
        AddedLast(passed, i);
        passed := passed + [i];
      } else {
        AddedLast(calls, i);
        calls := calls + [i];
      }
      i := i + 1;
    }
    var ms := Messages(msgs);
    ImmediateIsForClient(ms, passed);
    if |calls| == 0 {
      NoCalls(ms, serve);
      return Wrote(Nothing, [], passed);
    }
    var answers, called := ServeCalls(ms, calls, serve);
    r := Wrote(if |answers| > 0 then Array(answers) else Nothing, called, passed);
  }

  /** The goroutine that serves the calls of a batch, one after the other. */
  method ServeCalls(msgs: seq<Message>, calls: seq<nat>, serve: nat -> Served)
    returns (answers: seq<Message>, called: seq<nat>)
    requires Ascending(calls)
    requires forall j :: 0 <= j < |calls| ==> calls[j] < |msgs| && !Immediate(msgs[calls[j]])
    requires forall k :: 0 <= k < |msgs| && !Immediate(msgs[k]) ==> k in calls
    ensures msgs != [] ==> IsBatchReply(msgs, serve, if |answers| > 0 then Array(answers) else Nothing)
    ensures Lists(msgs, called, CallsMethod)
  {
    answers, called := [], [];
    ghost var at: seq<nat> := [];
    var j := 0;
    while j < |calls|
      invariant 0 <= j <= |calls| && Serving(msgs, serve, calls, j, at, called, answers)
    {
      var m := msgs[calls[j]];
      ServesNext(msgs, serve, calls, j, at, called, answers);
      if Calls(m) {
        called := called + [calls[j]];
      }
      var answer := HandleCallMsg(m, serve(calls[j]));
      if answer.Some? {
        answers := answers + [answer.value];
        at := at + [calls[j]];
      }
      j := j + 1;
    }
    PickedAll(msgs, calls, at, NeedsAnswer);
    PickedAll(msgs, calls, called, CallsMethod);
    assert RepliesAt(msgs, serve, at, if |answers| > 0 then Array(answers) else Nothing);
  }

  /** The first `j` calls have been served: those at `at` answered, those at `called` have called a method. */
  ghost predicate Serving(msgs: seq<Message>, serve: nat -> Served, calls: seq<nat>, j: nat, at: seq<nat>,
                          called: seq<nat>, answers: seq<Message>)
  {
    && Answers(msgs, serve, at, answers)
    && Picked(msgs, calls, j, at, NeedsAnswer) && Picked(msgs, calls, j, called, CallsMethod)
  }

  lemma ServesNext(msgs: seq<Message>, serve: nat -> Served, calls: seq<nat>, j: nat, at: seq<nat>,
                   called: seq<nat>, answers: seq<Message>)
    requires Serving(msgs, serve, calls, j, at, called, answers)
    requires Ascending(calls) && j < |calls| && calls[j] < |msgs| && !Immediate(msgs[calls[j]])
    ensures var m, x := msgs[calls[j]], calls[j]; var a := HandleCallMsg(m, serve(x));
            Serving(msgs, serve, calls, j + 1, if a.Some? then at + [x] else at,
                    if Calls(m) then called + [x] else called,
                    if a.Some? then answers + [a.value] else answers)
  {
    var m, x := msgs[calls[j]], calls[j];
    CallMsgAnswers(m, serve(x));
    PickNext(msgs, calls, j, at, NeedsAnswer);
    PickNext(msgs, calls, j, called, CallsMethod);
    if NeedsAnswer(m) {
      AnswerAdded(msgs, serve, at, answers, x, HandleCallMsg(m, serve(x)).value);
    }
  }

  lemma AnswerAdded(msgs: seq<Message>, serve: nat -> Served, at: seq<nat>, answers: seq<Message>, x: nat, a: Message)
    requires Answers(msgs, serve, at, answers) && x < |msgs| && IsAnswerTo(a, msgs[x], serve(x))
    ensures Answers(msgs, serve, at + [x], answers + [a])
  {
  }

  /** `out` has those of the first `j` calls whose messages are of a kind, in order. */
  ghost predicate Picked(msgs: seq<Message>, calls: seq<nat>, j: nat, out: seq<nat>, kind: Message -> bool) {
    && j <= |calls| && Ascending(out)
    && (forall a :: 0 <= a < |out| ==>
          out[a] < |msgs| && kind(msgs[out[a]]) && (j < |calls| ==> out[a] < calls[j]))
    && (forall k :: 0 <= k < j && calls[k] < |msgs| && kind(msgs[calls[k]]) ==> calls[k] in out)
  }

  lemma PickNext(msgs: seq<Message>, calls: seq<nat>, j: nat, out: seq<nat>, kind: Message -> bool)
    requires Picked(msgs, calls, j, out, kind) && Ascending(calls) && j < |calls| && calls[j] < |msgs|
    ensures Picked(msgs, calls, j + 1, if kind(msgs[calls[j]]) then out + [calls[j]] else out, kind)
  {
    AddedLast(out, calls[j]);
  }

  /** Messages that are answered or call a method are not dealt with at once. */
  lemma PickedAll(msgs: seq<Message>, calls: seq<nat>, out: seq<nat>, kind: Message -> bool)
    requires Picked(msgs, calls, |calls|, out, kind) && (forall m :: kind(m) ==> NeedsAnswer(m) || CallsMethod(m))
    requires forall k :: 0 <= k < |msgs| && !Immediate(msgs[k]) ==> k in calls
    ensures Lists(msgs, out, kind)
  {
  }

  /** A batch without calls is not answered. */
  lemma NoCalls(msgs: seq<Message>, serve: nat -> Served)
    requires msgs != [] && forall k :: 0 <= k < |msgs| ==> Immediate(msgs[k])
    ensures IsBatchReply(msgs, serve, Nothing) && Lists(msgs, [], CallsMethod)
  {
    assert AnswerPositions(msgs, []) && RepliesAt(msgs, serve, [], Nothing);
  }

  /** What is dealt with at once is what is meant for the client's side. */
  lemma ImmediateIsForClient(msgs: seq<Message>, at: seq<nat>)
    requires Ascending(at) && forall j :: 0 <= j < |at| ==> at[j] < |msgs| && Immediate(msgs[at[j]])
    requires forall k :: 0 <= k < |msgs| && Immediate(msgs[k]) ==> k in at
    ensures Lists(msgs, at, ForClient)
  {
    assert forall m :: Immediate(m) <==> ForClient(m);
  }

  lemma AddedLast(at: seq<nat>, x: nat)
    requires Ascending(at) && forall a :: 0 <= a < |at| ==> at[a] < x
    ensures Ascending(at + [x]) && x in at + [x]
    ensures forall y :: y in at ==> y in at + [x]
  {
    assert (at + [x])[|at|] == x;
  }

  /** The reply is determined by the standard up to the texts of errors: two replies to the same batch
      have the same length, and answer the same messages in the same order. */
  lemma AnswerPositionsUnique(msgs: seq<Message>, a: seq<nat>, b: seq<nat>)
    requires AnswerPositions(msgs, a) && AnswerPositions(msgs, b)
    ensures a == b
  {
    SortedSame(a, b);
  }

  lemma {:induction false} SortedSame(a: seq<nat>, b: seq<nat>)
    requires Ascending(a) && Ascending(b)
    requires forall x :: x in a <==> x in b
    ensures a == b
  {
    assert a != [] ==> a[0] in b;
    assert b != [] ==> b[0] in a;
    if a != [] && b != [] {
      assert a[0] == b[0];
      assert forall x :: x in a[1..] <==> x in a && x != a[0];
      assert forall x :: x in b[1..] <==> x in b && x != b[0];
      SortedSame(a[1..], b[1..]);
    }
  }
}
