/** `tools.BlockCounter`: a ring of the latest block heights and the times at which they were seen. */
module BlockCounters {
  import opened Basics
  import opened Circles

  datatype Sample = Sample(height: nat, time: nat)

  /** The fields of the counter; `head` starts at 1. */
  datatype Ring = Ring(state: seq<Sample>, head: nat, tail: nat, last: nat, full: bool)

  function NewRing(count: nat): Ring {
    Ring(seq(count, _ => Sample(0, 0)), 1, 0, 0, false)
  }

  predicate ValidRing(r: Ring) {
    |r.state| >= 2 && r.tail < |r.state| && r.head < |r.state|
  }

  function Ticked(r: Ring, height: nat, now: nat): (r': Ring)
    requires ValidRing(r)
    ensures ValidRing(r') && |r'.state| == |r.state|
  {
    if height == r.last then r
    else
      var count := |r.state|;
      var full := r.full || r.tail == count - 1;
      var tail := Around(count, r.tail, 1);
      Ring(r.state[tail := Sample(height, now)], if full then Around(count, tail, 1) else r.head, tail, height, full)
  }

  /** The samples that count: those whose height differs from the one accepted before (0 at first). */
  function Accepted(ticks: seq<Sample>): seq<Sample> {
    if ticks == [] then []
    else
      var before := Accepted(ticks[..|ticks| - 1]);
      var t := ticks[|ticks| - 1];
      if t.height == LastHeight(before) then before else before + [t]
  }

  function LastHeight(log: seq<Sample>): nat {
    if log == [] then 0 else log[|log| - 1].height
  }

  function Run(count: nat, ticks: seq<Sample>): (r: Ring)
    requires count >= 2
    ensures ValidRing(r) && |r.state| == count
  {
    if ticks == [] then NewRing(count)
    else
      var t := ticks[|ticks| - 1];
      Ticked(Run(count, ticks[..|ticks| - 1]), t.height, t.time)
  }

  /** Where the ring keeps the `j`-th accepted sample, counting from 1. */
  function Slot(j: nat, count: nat): (i: nat)
    requires count >= 1
    ensures i < count
  {
    if j == 0 then 0 else Around(count, Slot(j - 1, count), 1)
  }

  lemma {:induction false} SlotIsModulo(j: nat, count: nat)
    requires count >= 1
    ensures Slot(j, count) == j % count
  {
    if j == 0 {
      NextResidue(0, count);
    } else {
      SlotIsModulo(j - 1, count);
      NextResidue(j, count);
    }
  }

  lemma {:induction false} SlotAround(j: nat, d: nat, count: nat)
    requires count >= 1 && d <= count
    ensures Slot(j + d, count) == Around(count, Slot(j, count), d)
  {
    if d > 0 {
      SlotAround(j, d - 1, count);
    }
  }

  /** How many of `m` accepted samples the ring holds. */
  function Held(m: nat, count: nat): nat {
    if m < count then m else count
  }

  /** The ring stands for the log: it holds its last entries, with `tail` at the newest and `head` at
      the oldest of them. */
  ghost predicate Refines(r: Ring, log: seq<Sample>) {
    && ValidRing(r)
    && var count, m := |r.state|, |log|;
    && r.tail == Slot(m, count)
    && (r.full <==> m >= count)
    && r.head == (if m < count then 1 else Slot(m + 1, count))
    && r.last == LastHeight(log)
    && (m == 0 ==> r.state[1] == r.state[0] == Sample(0, 0))
    && forall j :: m - Held(m, count) < j <= m ==> r.state[Slot(j, count)] == log[j - 1]
  }

  lemma NewRefines(count: nat)
    requires count >= 2
    ensures Refines(NewRing(count), [])
  {
  }

  /** The first `count` samples lie one after the other. */
  lemma SlotLow(j: nat, count: nat)
    requires j < count
    ensures Slot(j, count) == j
  {
  }

  /** The new sample goes to its own slot, and overwrites none that is still held. */
  lemma TickStores(r: Ring, log: seq<Sample>, height: nat, now: nat, j: nat)
    requires Refines(r, log) && height != LastHeight(log)
    requires |log| + 1 - Held(|log| + 1, |r.state|) < j <= |log| + 1
    ensures Ticked(r, height, now).state[Slot(j, |r.state|)] == (log + [Sample(height, now)])[j - 1]
  {
    var count, m := |r.state|, |log|;
    SlotAround(m, 1, count);
    if j <= m {
      SlotAround(j, m + 1 - j, count);
      assert r.state[Slot(j, count)] == log[j - 1];
    }
  }

  /** The indices move on: from 1 and 1 until the ring is full, and then around it together. */
  lemma TickMoves(r: Ring, log: seq<Sample>, height: nat, now: nat)
    requires Refines(r, log) && height != LastHeight(log)
    ensures var r', count, m := Ticked(r, height, now), |r.state|, |log| + 1;
            && r'.tail == Slot(m, count)
            && (r'.full <==> m >= count)
            && r'.head == (if m < count then 1 else Slot(m + 1, count))
  {
    var count, m := |r.state|, |log|;
    if m < count {
      SlotLow(m, count);
    }
    SlotAround(m, 1, count);
    SlotAround(m + 1, 1, count);
  }

  lemma TickRefines(r: Ring, log: seq<Sample>, height: nat, now: nat)
    requires Refines(r, log)
    ensures Refines(Ticked(r, height, now), if height == LastHeight(log) then log else log + [Sample(height, now)])
  {
    if height != LastHeight(log) {
      var log' := log + [Sample(height, now)];
      TickMoves(r, log, height, now);
      forall j | |log'| - Held(|log'|, |r.state|) < j <= |log'|
        ensures Ticked(r, height, now).state[Slot(j, |r.state|)] == log'[j - 1]
      {
        TickStores(r, log, height, now, j);
      }
    }
  }

  /** After any sequence of ticks the ring stands for the log of accepted samples. */
  lemma {:induction false} RunRefines(count: nat, ticks: seq<Sample>)
    requires count >= 2
    ensures Refines(Run(count, ticks), Accepted(ticks))
  {
    if ticks == [] {
      NewRefines(count);
    } else {
      var t := ticks[|ticks| - 1];
      RunRefines(count, ticks[..|ticks| - 1]);
      TickRefines(Run(count, ticks[..|ticks| - 1]), Accepted(ticks[..|ticks| - 1]), t.height, t.time);
    }
  }

  /** The differences of uint64 values that `BlockTime` divides: duration and number of blocks. */
  function Spans(r: Ring): (nat, nat)
    requires ValidRing(r)
  {
    ((r.state[r.tail].time - r.state[r.head].time) % TWO_64, (r.state[r.tail].height - r.state[r.head].height) % TWO_64)
  }

  /** The accepted samples that the ring still holds, oldest first. */
  function Window(count: nat, log: seq<Sample>): seq<Sample> {
    log[|log| - Held(|log|, count)..]
  }

  ghost predicate Rising(log: seq<Sample>) {
    forall i, j :: 0 <= i < j < |log| ==>
      log[i].height <= log[j].height < TWO_64 && log[i].time <= log[j].time < TWO_64
  }

  /** Accepted heights differ from their predecessors. */
  lemma {:induction false} AcceptedDiffers(ticks: seq<Sample>)
    ensures forall i :: 0 < i < |Accepted(ticks)| ==> Accepted(ticks)[i - 1].height != Accepted(ticks)[i].height
  {
    if ticks != [] {
      AcceptedDiffers(ticks[..|ticks| - 1]);
    }
  }

  /** `tail` is at the last of `w`, and `head` at the first. */
  ghost predicate Ends(r: Ring, w: seq<Sample>) {
    && ValidRing(r)
    && if w == [] then r.state[r.tail] == r.state[r.head] == Sample(0, 0)
       else r.state[r.tail] == w[|w| - 1] && r.state[r.head] == w[0]
  }

  lemma WindowEnds(r: Ring, log: seq<Sample>)
    requires Refines(r, log)
    ensures Ends(r, Window(|r.state|, log))
  {
    var count, m := |r.state|, |log|;
    if m > 0 {
      var oldest := m - Held(m, count) + 1;
      if m < count {
        SlotLow(1, count);
      } else {
        SlotAround(oldest, count, count);
      }
      assert r.state[Slot(m, count)] == log[m - 1];
      assert r.state[Slot(oldest, count)] == log[oldest - 1];
    }
  }

  /** The time and the height between the first and the last of some samples. */
  function Between(w: seq<Sample>): (int, int) {
    if w == [] then (0, 0) else (w[|w| - 1].time - w[0].time, w[|w| - 1].height - w[0].height)
  }

  lemma SpansOfEnds(r: Ring, w: seq<Sample>)
    requires Ends(r, w)
    ensures Spans(r).0 == Between(w).0 % TWO_64 && Spans(r).1 == Between(w).1 % TWO_64
  {
  }

  /** A difference of uint64 values, in uint64 arithmetic, is the difference exactly if that is not
      negative, and 0 exactly if that is 0. */
  lemma Difference(x: int)
    requires -(TWO_64 as int) < x < TWO_64
    ensures x % TWO_64 == if x >= 0 then x else x + TWO_64
  {
    QuotientUnique(TWO_64, x / TWO_64, x % TWO_64, if x >= 0 then 0 else -1, if x >= 0 then x else x + TWO_64);
  }

  /** The samples are made of uint64 values, as the parameters of the code are. */
  ghost predicate Words(log: seq<Sample>) {
    forall i :: 0 <= i < |log| ==> log[i].height < TWO_64 && log[i].time < TWO_64
  }

  lemma {:induction false} AcceptedWords(ticks: seq<Sample>)
    requires Words(ticks)
    ensures Words(Accepted(ticks))
  {
    if ticks != [] {
      AcceptedWords(ticks[..|ticks| - 1]);
    }
  }

  /** After any sequence of ticks, the two numbers that `BlockTime` divides are, in uint64 arithmetic,
      the time and the height between the oldest and the newest of the last `count` accepted samples.
      Each is exact if and only if the newest is not below the oldest; the divisor is 0 if and only if
      their heights are the same. */
  lemma BlockTimeSpans(count: nat, ticks: seq<Sample>)
    requires count >= 2 && Words(ticks)
    ensures var spans, between := Spans(Run(count, ticks)), Between(Window(count, Accepted(ticks)));
            && spans.0 == between.0 % TWO_64 && spans.1 == between.1 % TWO_64
            && (spans.0 == between.0 <==> between.0 >= 0)
            && (spans.1 == between.1 <==> between.1 >= 0)
            && (spans.1 == 0 <==> between.1 == 0)
    ensures var w := Window(count, Accepted(ticks));
            && |w| == (if |Accepted(ticks)| < count then |Accepted(ticks)| else count)
            && Accepted(ticks)[|Accepted(ticks)| - |w|..] == w
            && Between(w) == if w == [] then (0, 0) else (w[|w| - 1].time - w[0].time, w[|w| - 1].height - w[0].height)
  {
    var r, log := Run(count, ticks), Accepted(ticks);
    assert Ends(r, Window(count, log)) by {
      RunRefines(count, ticks);
      WindowEnds(r, log);
    }
    AcceptedWords(ticks);
    var w := Window(count, log);
    SpansOfEnds(r, w);
    Difference(Between(w).0);
    Difference(Between(w).1);
  }

  /** While heights and times do not fall, both numbers are exact, and the divisor is 0 only if there
      are fewer than two samples. */
  lemma RisingSpans(count: nat, ticks: seq<Sample>)
    requires count >= 2 && Words(ticks) && Rising(Accepted(ticks))
    ensures var spans, between := Spans(Run(count, ticks)), Between(Window(count, Accepted(ticks)));
            spans == between && (spans.1 == 0 <==> |Accepted(ticks)| < 2)
  {
    BlockTimeSpans(count, ticks);
    RisingSpan(ticks, count);
  }

  /** Otherwise the divisor can be 0 with three samples: a height is left and reached again. */
  lemma HeightRegained(ticks: seq<Sample>)
    requires ticks == [Sample(5, 0), Sample(6, 10), Sample(5, 20)]
    ensures |Accepted(ticks)| == 3 && Spans(Run(3, ticks)).1 == 0
  {
    AllAccepted(ticks);
    SpansOfAll(ticks);
  }

  /** And it can wrap with two: a height is lost. */
  lemma HeightLost(ticks: seq<Sample>)
    requires ticks == [Sample(6, 0), Sample(5, 10)]
    ensures |Accepted(ticks)| == 2 && Spans(Run(2, ticks)).1 == TWO_64 - 1
  {
    AllAccepted(ticks);
    SpansOfAll(ticks);
    Difference(-1);
  }

  lemma SpansOfAll(ticks: seq<Sample>)
    requires |ticks| >= 2 && Words(ticks) && Accepted(ticks) == ticks
    ensures Spans(Run(|ticks|, ticks)).1 == (ticks[|ticks| - 1].height - ticks[0].height) % TWO_64
  {
    BlockTimeSpans(|ticks|, ticks);
    assert Window(|ticks|, ticks) == ticks;
  }

  lemma {:induction false} AllAccepted(ticks: seq<Sample>)
    requires forall i :: 0 <= i < |ticks| ==> ticks[i].height != LastHeight(ticks[..i])
    ensures Accepted(ticks) == ticks
  {
    if ticks != [] {
      var before := ticks[..|ticks| - 1];
      assert forall i :: 0 <= i < |before| ==> before[..i] == ticks[..i];
      AllAccepted(before);
    }
  }

  lemma RisingSpan(ticks: seq<Sample>, count: nat)
    requires count >= 2 && Rising(Accepted(ticks))
    ensures var d := Between(Window(count, Accepted(ticks)));
            && 0 <= d.0 && 0 <= d.1
            && (d.1 == 0 <==> |Accepted(ticks)| < 2)
  {
    var log := Accepted(ticks);
    AcceptedDiffers(ticks);
    if |log| >= 2 {
      assert log[|log| - 2].height < log[|log| - 1].height;
    }
  }

  /** The counter itself. */
  class BlockCounter {
    const count: nat
    const state: array<Sample>
    var head: nat
    var tail: nat
    var last: nat
    var full: bool

    constructor (count: nat)
      requires count >= 2
      ensures Valid() && fresh(state) && View() == NewRing(count)
      ensures this.count == count && head == 1 && tail == 0 && last == 0 && !full
      ensures forall i :: 0 <= i < state.Length ==> state[i] == Sample(0, 0)
    {
      this.count := count;
      state := new Sample[count](_ => Sample(0, 0));
      head, tail, last, full := 1, 0, 0, false;
      new;
      assert state[..] == NewRing(count).state;
    }

    ghost predicate Valid()
      reads this
    {
      count >= 2 && state.Length == count && head < count && tail < count
    }

    ghost function View(): Ring
      reads this, state
    {
      Ring(state[..], head, tail, last, full)
    }

    /** `now` is the clock in milliseconds. */
    method Tick(height: nat, now: nat)
      requires Valid()
      modifies this`head, this`tail, this`last, this`full, state
      ensures Valid() && View() == Ticked(old(View()), height, now)
    {
      if height == last {
        return;
      }
      last := height;
      if !full && tail == count - 1 {
        full := true;
      }
      AroundIsModulo(count, tail, 1);
      tail := (tail + 1) % count;
      state[tail] := Sample(height, now);
      if full {
        AroundIsModulo(count, tail, 1);
        head := (tail + 1) % count;
      }
    }

    /** The average time between blocks, and 0 while no height has been gained. */
    method BlockTime() returns (average: real)
      requires Valid()
      ensures var (duration, blocks) := Spans(View());
              if blocks == 0 then average == 0.0 else average * blocks as real == duration as real
    {
      AroundIsModulo(count, head, 0);
      AroundIsModulo(count, tail, 0);
      var h, t := state[head % count], state[tail % count];
      var duration := (t.time - h.time) % TWO_64;
      var blocks := (t.height - h.height) % TWO_64;
      if blocks == 0 {
        return 0.0;
      }
      average := duration as real / blocks as real;
    }
  }
}
