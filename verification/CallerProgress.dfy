/** No caller is caught: whatever has happened, its call can still return. */
module CallerProgress {
  import opened Basics
  import opened RequestSafety
  import opened Connections
  import opened ClientProtocol
  import opened RequestLoss
  import opened RequestHistory

  /** How far a caller is from returning. */
  function PcRank(p: Pc): nat {
    match p
    case Building(_) => 8
    case AtReqInit => 7
    case Holding => 6
    case Offering(_) => 5
    case Writing => 4
    case Wrote(_) => 3
    case Waiting(_) => 2
    case TimingOut => 1
    case Returned => 0
  }

  function PhaseRank(p: Phase): nat {
    match p
    case Swapping(_) => 3
    case Looping => 2
    case Quitting => 1
    case Quit => 0
  }

  function ReaderRank(rd: Reader): nat {
    if rd.HasErr? then 1 else if rd.Reading? then 2 else 3
  }

  /** A step that takes the caller on its way: its own, if it can take one without reconnecting; the end of
      the loop, or a step of the draining reader, if it has to wait for the loop. */
  ghost function Homeward<R>(s: Sys<R>, r: R): Step<R>
    requires s.WellFormed() && r in s.pc
  {
    match s.pc[r]
    case Building(_) => ByCaller(r, GiveUp)
    case AtReqInit => ByCaller(r, GiveUp)
    case Holding => ByCaller(r, if s.writeConn.None? then DialFail(ErrDead) else BeginWrite)
    case Offering(_) =>
      if s.phase.Quit? then ByCaller(r, DialRefused) else if s.phase.Looping? then Close else DrainStep(s)
    case Writing => ByCaller(r, FinishWrite(Some(ErrDead)))
    case Wrote(_) => ByCaller(r, SignalSent)
    case Waiting(_) => ByCaller(r, ContextDone)
    case TimingOut =>
      if s.phase.Looping? then ByCaller(r, Timeout)
      else if s.phase.Swapping? then DrainStep(s) else ByCaller(r, AbandonTimeout)
    case Returned => Close
  }

  /** The loop comes nearer to its end, or the reader to its error. */
  ghost predicate Nearer<R>(s: Sys<R>, s': Sys<R>)
    requires s.WellFormed() && s'.WellFormed()
  {
    || PhaseRank(s'.phase) < PhaseRank(s.phase)
    || (s'.phase == s.phase && ReaderRank(s'.conns[s'.conn].reader) < ReaderRank(s.conns[s.conn].reader))
  }

  lemma DrainsHome<R>(s: Sys<R>)
    requires Inv(s) && s.phase.Swapping?
    ensures Enabled(s, DrainStep(s))
    ensures var s' := Apply(s, DrainStep(s)); s'.pc == s.pc && s'.WellFormed() && Nearer(s, s')
  {
    assert CurrentInv(s.Net()) && IncomingInv(s.Net());
  }

  lemma DrainsOut<R>(s: Sys<R>)
    requires Inv(s) && s.phase.Quitting?
    ensures Enabled(s, DrainStep(s))
    ensures var s' := Apply(s, DrainStep(s)); s'.pc == s.pc && s'.WellFormed() && Nearer(s, s')
  {
    assert CurrentInv(s.Net());
  }

  /** The caller takes a step of its own, and comes nearer. */
  lemma ActsHome<R>(s: Sys<R>, h: Story, r: R, act: CallerAct)
    requires True(s, h, r) && r in s.pc && !s.pc[r].Returned? && Homeward(s, r) == ByCaller(r, act)
    ensures CallerEnabled(s, r, act) && !act.Reconnected?
  {
  }

  lemma ActsNearer<R>(s: Sys<R>, r: R, act: CallerAct)
    requires s.WellFormed() && r in s.pc && Homeward(s, r) == ByCaller(r, act) && CallerEnabled(s, r, act)
    requires s.pc[r].Offering? ==> s.pc[r].next < |s.conns|
    ensures var s' := CallerEffect(s, r, act); r in s'.pc && PcRank(s'.pc[r]) < PcRank(s.pc[r])
  {
  }

  lemma HomewardEnabled<R>(s: Sys<R>, h: Story, r: R)
    requires True(s, h, r) && r in s.pc && !s.pc[r].Returned?
    ensures Enabled(s, Homeward(s, r)) && CalmStep(s, Homeward(s, r))
  {
    match Homeward(s, r)
    case ByCaller(_, act) => ActsHome(s, h, r, act);
    case OnConn(_, _) => if s.phase.Swapping? { DrainsHome(s); } else { DrainsOut(s); }
    case _ =>
  }

  lemma StepsHome<R>(s: Sys<R>, h: Story, r: R)
    requires True(s, h, r) && r in s.pc && !s.pc[r].Returned? && Enabled(s, Homeward(s, r))
    requires Apply(s, Homeward(s, r)).WellFormed()
    ensures var s' := Apply(s, Homeward(s, r));
            r in s'.pc && (PcRank(s'.pc[r]) < PcRank(s.pc[r]) || (s'.pc[r] == s.pc[r] && Nearer(s, s')))
  {
    match Homeward(s, r)
    case ByCaller(_, act) => ActsNearer(s, r, act);
    case OnConn(_, _) => if s.phase.Swapping? { DrainsHome(s); } else { DrainsOut(s); }
    case _ =>
  }

  lemma {:induction false} GoesHome<R>(s: Sys<R>, h: Story, r: R) returns (more: seq<Step<R>>)
    requires True(s, h, r) && r in s.pc
    ensures CalmRun(s, more) && r in Exec(s, more).pc && Exec(s, more).pc[r].Returned?
    decreases PcRank(s.pc[r]), PhaseRank(s.phase), ReaderRank(s.conns[s.conn].reader)
  {
    more := [];
    if !s.pc[r].Returned? {
      var st := Homeward(s, r);
      HomewardEnabled(s, h, r);
      TrueStep(s, h, st, r);
      StepsHome(s, h, r);
      more := GoesHome(Apply(s, st), Next(h, s, st, r), r);
      more := [st] + more;
    }
  }

  /** In every calm run, every caller can still return, in a continuation that is calm again: nobody is
      left waiting for a step that can no longer be taken. */
  lemma EveryCallCanReturn<R>(steps: seq<Step<R>>, r: R) returns (more: seq<Step<R>>)
    requires CalmRun(Init(), steps) && r in Exec(Init(), steps).pc
    ensures CalmRun(Exec(Init(), steps), more)
    ensures var s := Exec(Exec(Init(), steps), more); r in s.pc && s.pc[r].Returned?
  {
    StoryIsTrue(steps, r);
    more := GoesHome(Exec(Init(), steps), StoryOf(steps, r), r);
  }
}
