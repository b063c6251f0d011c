/** The subscriptions that a handler serves: registered when a call has returned, ended by the peer's
    unsubscribe or by the handler's close. */
module ServerSubscriptions {
  import opened Basics
  import opened Channels
  import opened Notifiers

  // What the handler's methods do to its subscriptions, as functions on values.

  /** The registered subscriptions by id, and the error channels of all there are. */
  datatype Book<S> = Book(table: map<string, S>, errs: map<S, Chan<Option<Error>>>)

  ghost function Register<S>(b: Book<S>, created: map<string, S>): Book<S> {
    b.(table := b.table + created)
  }

  ghost function Drop<S>(b: Book<S>, id: string): Book<S>
    requires id in b.table ==> b.table[id] in b.errs
  {
    if id !in b.table then b
    else Book(b.table - {id}, b.errs[b.table[id] := b.errs[b.table[id]].Close()])
  }

  ghost function TellAll<S>(b: Book<S>, e: Error): Book<S> {
    Book(map[], map s | s in b.errs :: if s in b.table.Values then Told(b.errs[s], e) else b.errs[s])
  }

  // ---------------------------------------------------------------------------------------------
  // The machine

  /** `errs` has the error channel of every subscription ever created, `idOf` its id and `owner` the
      call goroutine in which it was created. */
  datatype Subs<S> = Subs(table: map<string, S>, errs: map<S, Chan<Option<Error>>>,
                          idOf: map<S, string>, owner: map<S, nat>, procs: map<nat, Proc>, phase: Phase)

  /** A call goroutine: running the callback, after `addSubscriptions`, or done. */
  datatype Proc = Running | Registered | Finished

  /** `close` waits for the call goroutines before it ends the subscriptions. */
  datatype Phase = Open | Waiting | Closed

  ghost function Start<S>(): Subs<S> {
    Subs(map[], map[], map[], map[], map[], Open)
  }

  datatype Step<S> =
    | StartProc(p: nat)
    | CreateSub(p: nat, s: S, id: string)
    | AddSubs(p: nat)
    | Unsubscribe(p: nat, id: string)
    | FinishProc(p: nat)
    | BeginClose
    | EndClose(e: Error)
    | Take(s: S)          // the service receives from Err()

  ghost predicate ProcAt<S>(h: Subs<S>, p: nat, x: Proc) {
    p in h.procs && h.procs[p] == x
  }

  /** Subscription ids are random; they are taken to be different.  Calls are started only by the
      dispatch loop, which does not read from a connection once it has closed its handler. */
  ghost predicate Enabled<S>(h: Subs<S>, st: Step<S>) {
    match st
    case StartProc(p) => p !in h.procs && h.phase.Open?
    case CreateSub(p, s, id) => ProcAt(h, p, Running) && s !in h.errs && id !in h.idOf.Values
    case AddSubs(p) => ProcAt(h, p, Running)
    case Unsubscribe(p, id) => ProcAt(h, p, Running)
    case FinishProc(p) => ProcAt(h, p, Registered)
    case BeginClose => h.phase.Open?
    case Take(s) => s in h.errs && h.errs[s].CanReceive()
    case EndClose(e) => h.phase.Waiting? && forall p :: p in h.procs ==> h.procs[p].Finished?
  }

  ghost predicate WellFormed<S>(h: Subs<S>) {
    && h.idOf.Keys == h.errs.Keys && h.owner.Keys == h.errs.Keys
    && (forall id :: id in h.table ==> h.table[id] in h.errs)
    && (forall s1, s2 :: s1 in h.errs && s2 in h.errs && h.idOf[s1] == h.idOf[s2] ==> s1 == s2)
  }

  /** The subscriptions created in `p`, by id. */
  ghost function CreatedIn<S>(h: Subs<S>, p: nat): map<string, S>
    requires WellFormed(h)
  {
    map s | s in h.errs && h.owner[s] == p :: h.idOf[s] := s
  }

  ghost function BookOf<S>(h: Subs<S>): Book<S> {
    Book(h.table, h.errs)
  }

  ghost function SetBook<S>(h: Subs<S>, b: Book<S>): Subs<S> {
    h.(table := b.table, errs := b.errs)
  }

  ghost function Apply<S>(h: Subs<S>, st: Step<S>): Subs<S>
    requires WellFormed(h) && Enabled(h, st)
  {
    match st
    case StartProc(p) => h.(procs := h.procs[p := Running])
    case CreateSub(p, s, id) => h.(errs := h.errs[s := Make(1)], idOf := h.idOf[s := id], owner := h.owner[s := p])
    case AddSubs(p) => SetBook(h, Register(BookOf(h), CreatedIn(h, p))).(procs := h.procs[p := Registered])
    case Unsubscribe(p, id) => SetBook(h, Drop(BookOf(h), id))
    case FinishProc(p) => h.(procs := h.procs[p := Finished])
    case BeginClose => h.(phase := Waiting)
    case Take(s) => h.(errs := h.errs[s := h.errs[s].Receive()])
    case EndClose(e) => SetBook(h, TellAll(BookOf(h), e)).(phase := Closed)
  }

  /** One subscription: at most one value and one close, in that order; untouched until registered. */
  ghost predicate SubAt<S>(h: Subs<S>, s: S) {
    && WellFormed(h) && s in h.errs && h.owner[s] in h.procs
    && h.errs[s].Healthy() && h.errs[s].cap == 1 && |h.errs[s].sent| <= 1
    && (h.errs[s].sent != [] ==> h.errs[s].closed)
    && (!h.errs[s].closed ==> h.errs[s] == Make(1))
    && (h.procs[h.owner[s]].Running? ==> h.errs[s] == Make(1) && h.idOf[s] !in h.table)
    && (!h.procs[h.owner[s]].Running? ==> (h.idOf[s] in h.table <==> !h.errs[s].closed))
  }

  /** A registered subscription stands under its own id with its channel open and empty. */
  ghost predicate EntryAt<S>(h: Subs<S>, id: string) {
    && WellFormed(h) && id in h.table
    && h.idOf[h.table[id]] == id && h.errs[h.table[id]] == Make(1)
    && h.owner[h.table[id]] in h.procs && !h.procs[h.owner[h.table[id]]].Running?
  }

  ghost predicate Inv<S>(h: Subs<S>) {
    && WellFormed(h)
    && (forall s {:trigger SubAt(h, s)} :: s in h.errs ==> SubAt(h, s))
    && (forall id {:trigger EntryAt(h, id)} :: id in h.table ==> EntryAt(h, id))
    && (h.phase.Closed? ==> h.table == map[] && forall p :: p in h.procs ==> h.procs[p].Finished?)
  }

  /** A callback starts or ends, the service receives, or the handler begins to close. */
  lemma KeepCalls<S>(h: Subs<S>, st: Step<S>)
    requires Inv(h) && Enabled(h, st) && (st.StartProc? || st.FinishProc? || st.BeginClose?)
    ensures Inv(Apply(h, st))
  {
    var h' := Apply(h, st);
    forall s | s in h'.errs ensures SubAt(h', s) {
      assert SubAt(h, s);
    }
    forall id | id in h'.table ensures EntryAt(h', id) {
      assert EntryAt(h, id);
    }
  }

  lemma KeepCreateSub<S>(h: Subs<S>, p: nat, s: S, id: string)
    requires Inv(h) && Enabled(h, CreateSub(p, s, id))
    ensures Inv(Apply(h, CreateSub(p, s, id)))
  {
    var h' := Apply(h, CreateSub(p, s, id));
    assert id in h.table ==> EntryAt(h, id);
    forall q | q in h'.errs ensures SubAt(h', q) {
      assert q in h.errs ==> SubAt(h, q);
    }
    forall i | i in h'.table ensures EntryAt(h', i) {
      assert EntryAt(h, i);
    }
  }

  lemma KeepTake<S>(h: Subs<S>, s: S)
    requires Inv(h) && Enabled(h, Take(s))
    ensures Inv(Apply(h, Take(s)))
  {
    var h' := Apply(h, Take(s));
    assert SubAt(h, s);
    forall q | q in h'.errs ensures SubAt(h', q) {
      assert SubAt(h, q);
    }
    forall id | id in h'.table ensures EntryAt(h', id) {
      assert EntryAt(h, id);
    }
  }

  /** Each created subscription stands under its own id, and no two under the same. */
  lemma CreatedById<S>(h: Subs<S>, p: nat, s: S)
    requires WellFormed(h) && s in h.errs
    ensures h.owner[s] == p <==> h.idOf[s] in CreatedIn(h, p)
    ensures h.owner[s] == p ==> CreatedIn(h, p)[h.idOf[s]] == s
  {
    var created := CreatedIn(h, p);
    if h.idOf[s] in created {
      var q :| q in h.errs && h.owner[q] == p && h.idOf[q] == h.idOf[s];
      assert q == s;
    }
  }

  lemma KeepAddSubs<S>(h: Subs<S>, p: nat)
    requires Inv(h) && Enabled(h, AddSubs(p))
    ensures Inv(Apply(h, AddSubs(p)))
  {
    var h' := Apply(h, AddSubs(p));
    forall s | s in h'.errs ensures SubAt(h', s) {
      assert SubAt(h, s);
      CreatedById(h, p, s);
    }
    forall id | id in h'.table ensures EntryAt(h', id) {
      if id in CreatedIn(h, p) {
        assert SubAt(h, CreatedIn(h, p)[id]);
      } else {
        assert EntryAt(h, id);
      }
    }
  }

  lemma KeepUnsubscribe<S>(h: Subs<S>, p: nat, id: string)
    requires Inv(h) && Enabled(h, Unsubscribe(p, id))
    ensures Inv(Apply(h, Unsubscribe(p, id)))
  {
    var h' := Apply(h, Unsubscribe(p, id));
    if id in h.table {
      assert EntryAt(h, id);
      forall s | s in h'.errs ensures SubAt(h', s) {
        assert SubAt(h, s);
      }
      forall i | i in h'.table ensures EntryAt(h', i) {
        assert EntryAt(h, i);
      }
    }
  }

  lemma KeepEndClose<S>(h: Subs<S>, e: Error)
    requires Inv(h) && Enabled(h, EndClose(e))
    ensures Inv(Apply(h, EndClose(e)))
  {
    var h' := Apply(h, EndClose(e));
    forall s | s in h'.errs ensures SubAt(h', s) {
      assert SubAt(h, s);
      if h.idOf[s] in h.table {
        assert EntryAt(h, h.idOf[s]);
        assert h.table[h.idOf[s]] == s;
      }
      if s in h.table.Values {
        var id :| id in h.table && h.table[id] == s;
        assert EntryAt(h, id);
      }
    }
  }

  lemma KeepInv<S>(h: Subs<S>, st: Step<S>)
    requires Inv(h) && Enabled(h, st)
    ensures Inv(Apply(h, st))
  {
    match st
    case AddSubs(p) => KeepAddSubs(h, p);
    case Unsubscribe(p, id) => KeepUnsubscribe(h, p, id);
    case EndClose(e) => KeepEndClose(h, e);
    case CreateSub(p, s, id) => KeepCreateSub(h, p, s, id);
    case Take(s) => KeepTake(h, s);
    case _ => KeepCalls(h, st);
  }

  ghost predicate Run<S>(h: Subs<S>, steps: seq<Step<S>>)
    requires Inv(h)
    decreases |steps|
  {
    steps == [] || (Enabled(h, steps[0]) && (KeepInv(h, steps[0]); Run(Apply(h, steps[0]), steps[1..])))
  }

  ghost function Exec<S>(h: Subs<S>, steps: seq<Step<S>>): (h': Subs<S>)
    requires Inv(h) && Run(h, steps)
    ensures Inv(h')
    decreases |steps|
  {
    if steps == [] then h else KeepInv(h, steps[0]); Exec(Apply(h, steps[0]), steps[1..])
  }

  /** In every run, with any number of calls, unsubscribes and one close of the handler: the error
      channel of each subscription is closed at most once, is sent at most one value, before the
      close, and that send finds room; a registered subscription has an open, empty channel; when the
      handler has closed, no subscription is left and every one that was registered is closed. */
  lemma SubscriptionLifecycle<S>(steps: seq<Step<S>>)
    requires Run(Start(), steps)
    ensures var h := Exec(Start(), steps);
            && (forall s :: s in h.errs ==> h.errs[s].faults == [] && |h.errs[s].sent| <= 1)
            && (forall s :: s in h.errs && h.errs[s].sent != [] ==> h.errs[s].closed)
            && (forall id :: id in h.table ==> h.table[id] in h.errs && h.errs[h.table[id]] == Make(1))
            && (h.phase.Closed? ==> h.table == map[] && forall s :: s in h.errs ==> h.errs[s].closed)
  {
    var h := Exec(Start(), steps);
    forall s | s in h.errs
      ensures h.errs[s].faults == [] && |h.errs[s].sent| <= 1
      ensures h.errs[s].sent != [] ==> h.errs[s].closed
      ensures h.phase.Closed? ==> h.errs[s].closed
    {
      assert SubAt(h, s);
      assert h.phase.Closed? ==> h.procs[h.owner[s]].Finished?;
    }
    forall id | id in h.table ensures h.errs[h.table[id]] == Make(1) {
      assert EntryAt(h, id);
    }
  }

  /** Nothing has been sent to those that were there. */
  ghost predicate NothingTold<S>(h: Subs<S>, h': Subs<S>) {
    forall s :: s in h.errs ==> s in h'.errs && h'.errs[s].sent == h.errs[s].sent
  }

  lemma ClosedStep<S>(h: Subs<S>, st: Step<S>)
    requires Inv(h) && h.phase.Closed? && Enabled(h, st)
    ensures Apply(h, st).phase.Closed? && NothingTold(h, Apply(h, st))
  {
  }

  /** Once closed, the handler stays empty. */
  lemma {:induction false} StaysClosed<S>(h: Subs<S>, steps: seq<Step<S>>)
    requires Inv(h) && h.phase.Closed? && Run(h, steps)
    ensures Exec(h, steps).table == map[] && Exec(h, steps).phase.Closed?
    ensures NothingTold(h, Exec(h, steps))
    decreases |steps|
  {
    if steps != [] {
      KeepInv(h, steps[0]);
      ClosedStep(h, steps[0]);
      StaysClosed(Apply(h, steps[0]), steps[1..]);
    }
  }

  // ---------------------------------------------------------------------------------------------
  // The story of one subscription, told from the steps

  /** Its end: the peer has unsubscribed, or the handler has closed with an error. */
  datatype Ending = Ongoing | Dropped | HandlerClosed(e: Error)

  /** Whether the call that created it has returned, and how it has ended. */
  datatype Story = Story(registered: bool, end: Ending)

  ghost predicate Holds<S>(h: Subs<S>, s: S) {
    s in h.table.Values
  }

  ghost function Next<S>(t: Story, h: Subs<S>, st: Step<S>, s: S): Story {
    match st
    case AddSubs(p) => t.(registered := t.registered || (s in h.owner && h.owner[s] == p))
    case Unsubscribe(_, id) => if id in h.table && h.table[id] == s then t.(end := Dropped) else t
    case EndClose(e) => if Holds(h, s) then t.(end := HandlerClosed(e)) else t
    case _ => t
  }

  ghost function StoryOf<S>(t: Story, h: Subs<S>, steps: seq<Step<S>>, s: S): Story
    requires Inv(h) && Run(h, steps)
    decreases |steps|
  {
    if steps == [] then t
    else KeepInv(h, steps[0]); StoryOf(Next(t, h, steps[0], s), Apply(h, steps[0]), steps[1..], s)
  }

  ghost predicate True<S>(h: Subs<S>, t: Story, s: S) {
    && (s !in h.errs ==> t == Story(false, Ongoing) && !Holds(h, s))
    && (s in h.errs ==>
          && (h.errs[s].closed <==> !t.end.Ongoing?)
          && h.errs[s].sent == (if t.end.HandlerClosed? then [Some(t.end.e)] else [])
          && (Holds(h, s) <==> t.registered && t.end.Ongoing?))
  }

  /** Being registered is standing in the table under one's own id. */
  lemma HeldById<S>(h: Subs<S>, s: S)
    requires Inv(h) && s in h.errs
    ensures Holds(h, s) <==> h.idOf[s] in h.table && h.table[h.idOf[s]] == s
    ensures Holds(h, s) ==> h.errs[s] == Make(1) && s in h.owner && !(ProcAt(h, h.owner[s], Running))
  {
    if Holds(h, s) {
      var id :| id in h.table && h.table[id] == s;
      assert EntryAt(h, id);
    }
  }

  lemma AddSubsTrue<S>(h: Subs<S>, p: nat, t: Story, s: S)
    requires Inv(h) && Enabled(h, AddSubs(p)) && True(h, t, s) && s in h.errs
    ensures True(Apply(h, AddSubs(p)), Next(t, h, AddSubs(p), s), s)
  {
    var h' := Apply(h, AddSubs(p));
    KeepInv(h, AddSubs(p));
    assert SubAt(h, s) && SubAt(h', s);
    CreatedById(h, p, s);
    HeldById(h, s);
    HeldById(h', s);
  }

  lemma UnsubscribeTrue<S>(h: Subs<S>, p: nat, id: string, t: Story, s: S)
    requires Inv(h) && Enabled(h, Unsubscribe(p, id)) && True(h, t, s) && s in h.errs
    ensures True(Apply(h, Unsubscribe(p, id)), Next(t, h, Unsubscribe(p, id), s), s)
  {
    KeepInv(h, Unsubscribe(p, id));
    HeldById(h, s);
    HeldById(Apply(h, Unsubscribe(p, id)), s);
    assert id in h.table ==> EntryAt(h, id);
  }

  lemma NextTrue<S>(h: Subs<S>, st: Step<S>, t: Story, s: S)
    requires Inv(h) && Enabled(h, st) && True(h, t, s)
    ensures True(Apply(h, st), Next(t, h, st, s), s)
  {
    if s in h.errs {
      HeldById(h, s);
      match st {
        case AddSubs(p) => AddSubsTrue(h, p, t, s);
        case Unsubscribe(p, id) => UnsubscribeTrue(h, p, id, t, s);
        case _ =>
      }
    } else {
      KeepInv(h, st);
    }
  }

  lemma {:induction false} StaysTrue<S>(h: Subs<S>, steps: seq<Step<S>>, t: Story, s: S)
    requires Inv(h) && Run(h, steps) && True(h, t, s)
    ensures True(Exec(h, steps), StoryOf(t, h, steps, s), s)
    decreases |steps|
  {
    if steps != [] {
      KeepInv(h, steps[0]);
      NextTrue(h, steps[0], t, s);
      StaysTrue(Apply(h, steps[0]), steps[1..], Next(t, h, steps[0], s), s);
    }
  }

  /** In every run, a subscription is registered exactly from the return of its call to its end.  Its
      channel is closed exactly if it has ended: without a value if the peer unsubscribed, and after the
      handler's error, which its service finds there, if the handler has closed. */
  lemma ToldExactlyIf<S>(steps: seq<Step<S>>, s: S)
    requires Run(Start(), steps) && s in Exec(Start(), steps).errs
    ensures var h, t := Exec(Start(), steps), StoryOf(Story(false, Ongoing), Start(), steps, s);
            && (s in h.table.Values <==> t.registered && t.end.Ongoing?)
            && (h.errs[s].closed <==> !t.end.Ongoing?)
            && h.errs[s].sent == (if t.end.HandlerClosed? then [Some(t.end.e)] else [])
  {
    StaysTrue(Start(), steps, Story(false, Ongoing), s);
  }

  // ---------------------------------------------------------------------------------------------
  // The handler can always be closed

  ghost function At<S>(h: Subs<S>, x: Proc): set<nat> {
    set p | p in h.procs && h.procs[p] == x
  }

  /** What is left to do before the handler has closed. */
  ghost function Left<S>(h: Subs<S>): nat {
    2 * |At(h, Running)| + |At(h, Registered)| + (if h.phase.Open? then 2 else if h.phase.Waiting? then 1 else 0)
  }

  /** A call that is running returns, one that has returned finishes, and then the handler closes. */
  ghost function Closing<S>(h: Subs<S>, p: nat, e: Error): Step<S> {
    if ProcAt(h, p, Running) then AddSubs(p) else if ProcAt(h, p, Registered) then FinishProc(p)
    else if h.phase.Open? then BeginClose else EndClose(e)
  }

  lemma CallReturns<S>(h: Subs<S>, p: nat)
    requires Inv(h) && ProcAt(h, p, Running)
    ensures Left(Apply(h, AddSubs(p))) < Left(h)
  {
    var h' := Apply(h, AddSubs(p));
    assert At(h', Running) == At(h, Running) - {p} && At(h', Registered) == At(h, Registered) + {p};
  }

  lemma CallFinishes<S>(h: Subs<S>, p: nat)
    requires Inv(h) && ProcAt(h, p, Registered)
    ensures Left(Apply(h, FinishProc(p))) < Left(h)
  {
    var h' := Apply(h, FinishProc(p));
    assert At(h', Running) == At(h, Running) && At(h', Registered) == At(h, Registered) - {p};
  }

  lemma ClosesOn<S>(h: Subs<S>, p: nat, e: Error)
    requires Inv(h) && !h.phase.Closed?
    requires (p in h.procs && !h.procs[p].Finished?) || forall q :: q in h.procs ==> h.procs[q].Finished?
    ensures Enabled(h, Closing(h, p, e)) && Left(Apply(h, Closing(h, p, e))) < Left(h)
  {
    if ProcAt(h, p, Running) {
      CallReturns(h, p);
    } else if ProcAt(h, p, Registered) {
      CallFinishes(h, p);
    } else {
      var h' := Apply(h, Closing(h, p, e));
      assert At(h', Running) == At(h, Running) && At(h', Registered) == At(h, Registered);
    }
  }

  lemma {:induction false} Closes<S>(h: Subs<S>, e: Error) returns (more: seq<Step<S>>)
    requires Inv(h)
    ensures Run(h, more) && Exec(h, more).phase.Closed?
    decreases Left(h)
  {
    more := [];
    if !h.phase.Closed? {
      var p := 0;
      if q :| q in h.procs && !h.procs[q].Finished? {
        p := q;
      }
      var st: Step<S> := Closing(h, p, e);
      ClosesOn(h, p, e);
      KeepInv(h, st);
      more := Closes(Apply(h, st), e);
      Prepend(h, st, more);
      more := [st] + more;
    }
  }

  lemma Prepend<S>(h: Subs<S>, st: Step<S>, more: seq<Step<S>>)
    requires Inv(h) && Enabled(h, st) && (KeepInv(h, st); Run(Apply(h, st), more))
    ensures Run(h, [st] + more) && (KeepInv(h, st); Exec(h, [st] + more) == Exec(Apply(h, st), more))
  {
    assert ([st] + more)[1..] == more;
  }

  /** In every run, whatever calls are being served, the handler can be closed. */
  lemma CanBeClosed<S>(steps: seq<Step<S>>, e: Error) returns (more: seq<Step<S>>)
    requires Run(Start(), steps)
    ensures Run(Exec(Start(), steps), more) && Exec(Exec(Start(), steps), more).phase.Closed?
  {
    more := Closes(Exec(Start(), steps), e);
  }

  /** A call has created a subscription. */
  lemma Creates<S>(s: S, id: string)
    ensures var h := Subs(map[], map[s := Make(1)], map[s := id], map[s := 0], map[0 := Running], Open);
            && Run(Start(), [StartProc(0), CreateSub(0, s, id)])
            && Exec(Start(), [StartProc(0), CreateSub(0, s, id)]) == h
  {
    var h0: Subs<S> := Start();
    var st1: Step<S> := StartProc(0);
    var st2 := CreateSub(0, s, id);
    KeepInv(h0, st1);
    var h1 := Apply(h0, st1);
    KeepInv(h1, st2);
    assert Exec(Apply(h1, st2), []) == Apply(h1, st2);
    Prepend(h1, st2, []);
    Prepend(h0, st1, [st2] + []);
    assert [st1] + ([st2] + []) == [st1, st2];
  }

  lemma {:induction false} Append<S>(h: Subs<S>, steps: seq<Step<S>>, st: Step<S>)
    requires Inv(h) && Run(h, steps) && Enabled(Exec(h, steps), st)
    ensures Run(h, steps + [st]) && (KeepInv(Exec(h, steps), st); Exec(h, steps + [st]) == Apply(Exec(h, steps), st))
    decreases |steps|
  {
    if steps != [] {
      KeepInv(h, steps[0]);
      Append(Apply(h, steps[0]), steps[1..], st);
      assert (steps + [st])[1..] == steps[1..] + [st];
    } else {
      KeepInv(h, st);
      assert ([] + [st])[1..] == [];
    }
  }

  /** For every subscription there is a run that registers it. */
  lemma OneIsRegistered<S>(s: S, id: string) returns (steps: seq<Step<S>>)
    ensures Run(Start(), steps) && Exec(Start(), steps).table == map[id := s] && Exec(Start(), steps).phase.Open?
  {
    steps := [StartProc(0), CreateSub(0, s, id)];
    Creates(s, id);
    var h := Exec(Start(), steps);
    assert CreatedIn(h, 0) == map[id := s];
    Append(Start(), steps, AddSubs(0));
    steps := steps + [AddSubs(0)];
  }

  /** While the handler is being closed, who is registered stays so, and is told in the end. */
  lemma {:induction false} ClosesAndTells<S>(h: Subs<S>, e: Error, s: S) returns (more: seq<Step<S>>)
    requires Inv(h) && !h.phase.Closed? && s in h.table.Values
    ensures Run(h, more) && s in Exec(h, more).errs
    ensures Exec(h, more).errs[s].sent == [Some(e)] && Exec(h, more).errs[s].closed
    decreases Left(h)
  {
    var p := 0;
    if q :| q in h.procs && !h.procs[q].Finished? {
      p := q;
    }
    var st: Step<S> := Closing(h, p, e);
    ClosesOn(h, p, e);
    KeepInv(h, st);
    ClosingTells(h, p, e, s);
    more := [];
    if st.EndClose? {
      assert Exec(Apply(h, st), []) == Apply(h, st);
    } else {
      more := ClosesAndTells(Apply(h, st), e, s);
    }
    Prepend(h, st, more);
    more := [st] + more;
  }

  lemma ClosingTells<S>(h: Subs<S>, p: nat, e: Error, s: S)
    requires Inv(h) && !h.phase.Closed? && s in h.table.Values && Enabled(h, Closing(h, p, e))
    ensures var h' := Apply(h, Closing(h, p, e));
            if Closing(h, p, e).EndClose? then s in h'.errs && h'.errs[s] == Make(1).(sent := [Some(e)], closed := true)
            else !h'.phase.Closed? && s in h'.table.Values
  {
    var id :| id in h.table && h.table[id] == s;
    assert EntryAt(h, id);
    if ProcAt(h, p, Running) {
      forall q | q in h.errs && h.owner[q] == p ensures h.idOf[q] != id {
        assert SubAt(h, q);
      }
      assert Apply(h, AddSubs(p)).table[id] == s;
    } else if !Closing(h, p, e).EndClose? {
      assert Apply(h, Closing(h, p, e)).table == h.table;
    }
  }

  /** In every run, whatever calls are being served, the handler can be closed so that a subscription that
      is registered is told the error. */
  lemma CanBeTold<S>(steps: seq<Step<S>>, s: S, e: Error) returns (more: seq<Step<S>>)
    requires Run(Start(), steps) && s in Exec(Start(), steps).table.Values
    ensures Run(Exec(Start(), steps), more)
    ensures var h := Exec(Exec(Start(), steps), more); s in h.errs && h.errs[s].sent == [Some(e)] && h.errs[s].closed
  {
    var h := Exec(Start(), steps);
    assert !h.phase.Closed?;
    more := ClosesAndTells(h, e, s);
  }
}
