/** Node selection: `updateSelection` ranks the nodes of a chain by height and flags the healthy ones,
    `Select` scans the flags cyclically. */
module ChainSdk {
  import opened Basics
  import opened Circles

  /** A uint64 subtraction. */
  function Sub64(a: nat, b: nat): nat
    requires a < TWO_64 && b < TWO_64
  {
    (a - b) % TWO_64
  }

  predicate IsUint64(x: nat) {
    x < TWO_64
  }

  /** The height that an answer counts for: a node that fails counts as 0. */
  function HeightOf(answer: Option<nat>): nat {
    if answer.Some? then answer.value else 0
  }

  ghost predicate Answers(answers: seq<Option<nat>>) {
    forall i :: 0 <= i < |answers| && answers[i].Some? ==> IsUint64(answers[i].value)
  }

  /** `h` is the greatest height answered and `index` the first node that reached it; both are 0 when
      no node answered with a positive height. */
  ghost predicate IsBest(answers: seq<Option<nat>>, h: nat, index: nat) {
    && (forall i :: 0 <= i < |answers| ==> HeightOf(answers[i]) <= h)
    && (h == 0 ==> index == 0)
    && (h > 0 ==>
          && index < |answers| && answers[index] == Some(h)
          && forall i :: 0 <= i < index ==> HeightOf(answers[i]) < h)
  }

  /** The flags: within `maxGap` of the best height, in uint64 arithmetic. */
  function Flags(answers: seq<Option<nat>>, height: nat, maxGap: nat): seq<bool>
    requires height < TWO_64 && maxGap < TWO_64
  {
    seq(|answers|, i requires 0 <= i < |answers| => HeightOf(answers[i]) >= Sub64(height, maxGap))
  }

  /** What the flags mean.  When the gap does not exceed the best height, they are as intended; when
      it does, the subtraction wraps and no node is flagged, whatever the heights. */
  lemma FlagsMeaning(answers: seq<Option<nat>>, height: nat, index: nat, maxGap: nat)
    requires Answers(answers) && height < TWO_64 && maxGap < TWO_64 && IsBest(answers, height, index)
    ensures forall i :: 0 <= i < |answers| ==>
              (Flags(answers, height, maxGap)[i] <==> maxGap <= height && HeightOf(answers[i]) + maxGap >= height)
    ensures (exists i :: 0 <= i < |answers| && Flags(answers, height, maxGap)[i]) <==> maxGap <= height && answers != []
  {
    if maxGap <= height {
      assert Sub64(height, maxGap) == height - maxGap;
      if answers != [] {
        assert Flags(answers, height, maxGap)[index];
      }
    } else {
      assert Sub64(height, maxGap) == height - maxGap + TWO_64;
      assert height - maxGap + TWO_64 > height;
    }
  }

  // ---------------------------------------------------------------------------------------------
  // The cyclic scan

  /** The positions that a scan from `cursor` visits: all of them, the one after `cursor` first and
      `cursor` itself last. */
  function Order(n: nat, cursor: nat): (s: seq<nat>)
    requires cursor < n
    ensures |s| == n && forall d :: 0 <= d < n ==> s[d] == Around(n, cursor, d + 1)
  {
    seq(n, d requires 0 <= d < n => Around(n, cursor, d + 1))
  }

  ghost predicate Within(n: nat, s: seq<nat>) {
    forall d :: 0 <= d < |s| ==> s[d] < n
  }

  /** The flagged positions of `order`, in order. */
  ghost function Healthy(flags: seq<bool>, order: seq<nat>): (s: seq<nat>)
    requires Within(|flags|, order)
  {
    if order == [] then []
    else (if flags[order[0]] then [order[0]] else []) + Healthy(flags, order[1..])
  }

  /** The position that one `Select` moves to: the first flagged one after the cursor, else the cursor. */
  ghost predicate Selects(flags: seq<bool>, cursor: nat, c: nat) {
    && cursor < |flags|
    && exists d :: 1 <= d <= |flags| && SelectsAfter(flags, cursor, c, d)
  }

  ghost predicate SelectsAfter(flags: seq<bool>, cursor: nat, c: nat, d: nat)
    requires cursor < |flags| && 1 <= d <= |flags|
  {
    && c == Around(|flags|, cursor, d)
    && (d < |flags| ==> flags[c])
    && forall e :: 1 <= e < d ==> !flags[Around(|flags|, cursor, e)]
  }

  lemma {:induction false} HealthyAppend(flags: seq<bool>, a: seq<nat>, b: seq<nat>)
    requires Within(|flags|, a) && Within(|flags|, b)
    ensures Within(|flags|, a + b)
    ensures Healthy(flags, a + b) == Healthy(flags, a) + Healthy(flags, b)
  {
    assert Within(|flags|, a + b);
    if a == [] {
      assert a + b == b;
    } else {
      var first := if flags[a[0]] then [a[0]] else [];
      HealthyAppend(flags, a[1..], b);
      assert (a + b)[0] == a[0] && (a + b)[1..] == a[1..] + b;
      assert Healthy(flags, a) == first + Healthy(flags, a[1..]);
      assert Healthy(flags, a + b) == first + Healthy(flags, a[1..] + b);
    }
  }

  lemma {:induction false} HealthyNone(flags: seq<bool>, a: seq<nat>)
    requires Within(|flags|, a) && forall d :: 0 <= d < |a| ==> !flags[a[d]]
    ensures Healthy(flags, a) == []
  {
    if a != [] {
      HealthyNone(flags, a[1..]);
    }
  }

  /** The healthy nodes in the order in which a scan from `cursor` meets them. */
  ghost function Round(flags: seq<bool>, cursor: nat): seq<nat>
    requires cursor < |flags|
  {
    Healthy(flags, Order(|flags|, cursor))
  }

  ghost predicate EachHealthyOnce(flags: seq<bool>, s: seq<nat>) {
    Distinct(s) && forall i :: i in s <==> 0 <= i < |flags| && flags[i]
  }

  /** A round has every healthy node, and each once. */
  lemma RoundIsComplete(flags: seq<bool>, cursor: nat)
    requires cursor < |flags|
    ensures EachHealthyOnce(flags, Round(flags, cursor))
  {
    var order := Order(|flags|, cursor);
    HealthyDistinct(flags, order);
    HealthyOnly(flags, order);
    forall i | 0 <= i < |flags| && flags[i] ensures i in Round(flags, cursor) {
      var d := if i > cursor then i - cursor - 1 else i + |flags| - cursor - 1;
      assert order[d] == i;
      HealthyHas(flags, order, d);
    }
  }

  lemma {:induction false} HealthyOnly(flags: seq<bool>, a: seq<nat>)
    requires Within(|flags|, a)
    ensures forall x :: x in Healthy(flags, a) ==> x in a && x < |flags| && flags[x]
  {
    if a != [] {
      HealthyOnly(flags, a[1..]);
    }
  }

  lemma {:induction false} HealthyDistinct(flags: seq<bool>, a: seq<nat>)
    requires Distinct(a) && Within(|flags|, a)
    ensures Distinct(Healthy(flags, a))
  {
    if a != [] {
      HealthyDistinct(flags, a[1..]);
      HealthyOnly(flags, a[1..]);
      assert a[0] !in a[1..];
    }
  }

  lemma {:induction false} HealthyHas(flags: seq<bool>, a: seq<nat>, d: nat)
    requires Within(|flags|, a) && d < |a| && flags[a[d]]
    ensures a[d] in Healthy(flags, a)
  {
    if d > 0 {
      HealthyHas(flags, a[1..], d - 1);
    }
  }

  /** A scan from the `d`-th position of the scan from `cursor` is that scan, rotated. */
  lemma OrderRotates(n: nat, cursor: nat, d: nat)
    requires cursor < n && 1 <= d <= n
    ensures var order := Order(n, cursor);
            && order == order[..d - 1] + ([Around(n, cursor, d)] + order[d..])
            && Order(n, Around(n, cursor, d)) == order[d..] + (order[..d - 1] + [Around(n, cursor, d)])
  {
  }

  /** Scanning from `c` on rather than from just before it puts `c` last. */
  lemma HealthyRotates(flags: seq<bool>, before: seq<nat>, c: nat, after: seq<nat>)
    requires Within(|flags|, before) && Within(|flags|, after) && c < |flags| && flags[c]
    requires Healthy(flags, before) == []
    ensures Within(|flags|, before + ([c] + after)) && Within(|flags|, after + (before + [c]))
    ensures Healthy(flags, before + ([c] + after)) == [c] + Healthy(flags, after)
    ensures Healthy(flags, after + (before + [c])) == Healthy(flags, after) + [c]
  {
    assert Within(|flags|, [c] + after) && ([c] + after)[0] == c && ([c] + after)[1..] == after;
    HealthyAppend(flags, before, [c] + after);
    assert [c][1..] == [] && Healthy(flags, [c]) == [c];
    HealthyAppend(flags, before, [c]);
    HealthyAppend(flags, after, before + [c]);
  }

  /** If the first healthy node that a scan from `cursor` meets is the `d`-th, `c`: the rounds from the
      cursor and from `c`. */
  lemma RoundsRotate(flags: seq<bool>, cursor: nat, c: nat, d: nat)
    requires cursor < |flags| && 1 <= d <= |flags| && SelectsAfter(flags, cursor, c, d) && flags[c]
    ensures Round(flags, cursor) == [c] + Healthy(flags, Order(|flags|, cursor)[d..])
    ensures Round(flags, c) == Healthy(flags, Order(|flags|, cursor)[d..]) + [c]
  {
    var order := Order(|flags|, cursor);
    OrderRotates(|flags|, cursor, d);
    HealthyNone(flags, order[..d - 1]);
    HealthyRotates(flags, order[..d - 1], c, order[d..]);
  }

  /** One `Select` picks the head of the round, and moves it to the end. */
  lemma SelectRotates(flags: seq<bool>, cursor: nat, c: nat)
    requires Selects(flags, cursor, c) && Round(flags, cursor) != []
    ensures c < |flags| && Round(flags, cursor)[0] == c
    ensures Round(flags, c) == Round(flags, cursor)[1..] + [c]
  {
    var d :| 1 <= d <= |flags| && SelectsAfter(flags, cursor, c, d);
    if !flags[c] {
      // then d is the number of nodes, and nothing is flagged
      HealthyNone(flags, Order(|flags|, cursor));
      assert false;
    }
    RoundsRotate(flags, cursor, c, d);
  }

  /** Without a healthy node `Select` stays where it is. */
  lemma SelectStays(flags: seq<bool>, cursor: nat, c: nat)
    requires Selects(flags, cursor, c) && forall i :: 0 <= i < |flags| ==> !flags[i]
    ensures c == cursor
  {
  }

  /** The results of consecutive `Select` calls while the flags do not change. */
  ghost predicate Picks(flags: seq<bool>, cursor: nat, cs: seq<nat>)
    decreases |cs|
  {
    cs == [] || (Selects(flags, cursor, cs[0]) && Picks(flags, cs[0], cs[1..]))
  }

  /** Round robin: with k >= 1 healthy nodes, the i-th of any number of consecutive calls returns the
      (i mod k)-th node of the round that starts at the cursor. */
  lemma {:induction false} RoundRobin(flags: seq<bool>, cursor: nat, cs: seq<nat>, i: nat)
    requires cursor < |flags| && Picks(flags, cursor, cs) && i < |cs| && Round(flags, cursor) != []
    ensures cs[i] == Round(flags, cursor)[i % |Round(flags, cursor)|]
    decreases i
  {
    var round := Round(flags, cursor);
    SelectRotates(flags, cursor, cs[0]);
    if i == 0 {
      NextResidue(0, |round|);
    } else {
      RoundRobin(flags, cs[0], cs[1..], i - 1);
      NextResidue(i, |round|);
    }
  }

  /** After `j` calls the cursor stands somewhere, with as long a round, and the calls go on. */
  lemma {:induction false} PicksDrop(flags: seq<bool>, cursor: nat, cs: seq<nat>, j: nat) returns (c: nat)
    requires cursor < |flags| && Picks(flags, cursor, cs) && j <= |cs| && Round(flags, cursor) != []
    ensures c < |flags| && Picks(flags, c, cs[j..])
    ensures |Round(flags, c)| == |Round(flags, cursor)|
    decreases j
  {
    if j == 0 {
      c := cursor;
      assert cs[0..] == cs;
    } else {
      SelectRotates(flags, cursor, cs[0]);
      c := PicksDrop(flags, cs[0], cs[1..], j - 1);
      assert cs[1..][j - 1..] == cs[j..];
    }
  }

  /** The first calls, as many as there are healthy nodes, return the round. */
  lemma FirstRound(flags: seq<bool>, cursor: nat, cs: seq<nat>)
    requires cursor < |flags| && Picks(flags, cursor, cs) && Round(flags, cursor) != []
    requires |Round(flags, cursor)| <= |cs|
    ensures EachHealthyOnce(flags, cs[..|Round(flags, cursor)|])
  {
    var round := Round(flags, cursor);
    forall i | 0 <= i < |round| ensures cs[i] == round[i] {
      RoundRobin(flags, cursor, cs, i);
      SmallResidue(i, |round|);
    }
    assert cs[..|round|] == round;
    RoundIsComplete(flags, cursor);
  }

  /** As many consecutive calls as there are healthy nodes return each healthy node exactly once,
      wherever among the calls one begins to count. */
  lemma AnyRound(flags: seq<bool>, cursor: nat, cs: seq<nat>, j: nat)
    requires cursor < |flags| && Picks(flags, cursor, cs) && Round(flags, cursor) != []
    requires j + |Round(flags, cursor)| <= |cs|
    ensures EachHealthyOnce(flags, cs[j..j + |Round(flags, cursor)|])
  {
    var k := |Round(flags, cursor)|;
    var c := PicksDrop(flags, cursor, cs, j);
    FirstRound(flags, c, cs[j..]);
    assert cs[j..j + k] == cs[j..][..k];
  }

  lemma SmallResidue(i: nat, k: nat)
    requires i < k
    ensures i % k == i
  {
    QuotientUnique(k, i / k, i % k, 0, i);
  }

  /** After an update, if the gap does not exceed the best height, the next `Select` returns a node
      whose height is within the gap; if it does, the subtraction has wrapped and the cursor stays. */
  lemma Freshness(answers: seq<Option<nat>>, height: nat, index: nat, maxGap: nat, cursor: nat, c: nat)
    requires Answers(answers) && height < TWO_64 && maxGap < TWO_64 && IsBest(answers, height, index)
    requires Selects(Flags(answers, height, maxGap), cursor, c)
    ensures maxGap <= height ==> c < |answers| && HeightOf(answers[c]) + maxGap >= height
    ensures maxGap > height ==> c == cursor
  {
    var flags := Flags(answers, height, maxGap);
    FlagsMeaning(answers, height, index, maxGap);
    RoundIsComplete(flags, cursor);
    if maxGap <= height {
      assert Round(flags, cursor) != [] by {
        assert HeightOf(answers[index]) == height;
        assert index in Round(flags, cursor);
      }
      SelectRotates(flags, cursor, c);
      assert c in Round(flags, cursor);
    } else {
      SelectStays(flags, cursor, c);
    }
  }

  class ChainSDK {
    const nodes: nat            // how many nodes; a node is identified by its position
    const maxGap: nat
    const state: array<bool>
    var sdk: Option<nat>
    var index: nat
    var cursor: nat
    var status: nat
    var height: nat

    constructor (nodes: nat, maxGap: nat)
      requires IsUint64(maxGap)
      ensures this.nodes == nodes && this.maxGap == maxGap && Valid() && fresh(state)
      ensures sdk == None && cursor == 0 && status == 0 && height == 0
      ensures forall i :: 0 <= i < nodes ==> !state[i]
    {
      this.nodes, this.maxGap := nodes, maxGap;
      state := new bool[nodes](_ => false);
      sdk, index, cursor, status, height := None, 0, 0, 0, 0;
    }

    ghost predicate Valid()
      reads this
    {
      && state.Length == nodes && IsUint64(maxGap) && IsUint64(height)
      && (nodes > 0 ==> cursor < nodes)
      && (sdk.Some? ==> sdk.value < nodes)
    }

    predicate Available()
      reads this
    {
      status > 0
    }

    /** Asks every node for its height (`answers`) and ranks them. */
    method UpdateSelection(answers: seq<Option<nat>>)
      requires Valid() && |answers| == nodes && Answers(answers)
      modifies this`sdk, this`index, this`status, this`height, state
      ensures Valid()
      ensures IsBest(answers, height, index)
      ensures nodes > 0 ==> sdk == Some(index)
      ensures nodes == 0 ==> sdk == None
      ensures Available() <==> exists i :: 0 <= i < |answers| && HeightOf(answers[i]) > 0
      ensures state[..] == Flags(answers, height, maxGap)
    {
      var best, node, first := 0, None, 0;
      var heights := new nat[nodes](_ => 0);
      var i := 0;
      while i < nodes
        invariant 0 <= i <= nodes
        invariant IsUint64(best) && IsBest(answers[..i], best, first)
        invariant node == if best > 0 then Some(first) else None
        invariant forall k :: 0 <= k < i ==> heights[k] == HeightOf(answers[k])
        invariant forall k :: i <= k < nodes ==> heights[k] == 0
      {
        match answers[i] {
          case None =>
          case Some(h) =>
            heights[i] := h;
            if h > best {
              best, node, first := h, Some(i), i;
            }
        }
        i := i + 1;
      }
      assert answers[..nodes] == answers;
      var up := 1;
      if node.None? {
        up := 0;
        if nodes > 0 {
          node := Some(0);
        }
      }
      sdk, status, height, index := node, up, best, first;
      i := 0;
      while i < nodes
        modifies state
        invariant 0 <= i <= nodes
        invariant forall k :: 0 <= k < i ==> state[k] == (heights[k] >= Sub64(best, maxGap))
      {
        state[i] := heights[i] >= Sub64(height, maxGap);
        i := i + 1;
      }
      assert best > 0 ==> HeightOf(answers[first]) > 0;
    }

    /** Moves the cursor to the next flagged node. */
    method Select() returns (c: nat)
      requires Valid() && nodes > 0
      modifies this`cursor
      ensures Valid() && c == cursor
      ensures Selects(state[..], old(cursor), c)
    {
      var n := nodes;
      AroundIsModulo(n, cursor, 0);
      AroundIsModulo(n, cursor, 1);
      var start := cursor % n;
      ghost var d := 1;
      cursor := cursor + 1;
      c := cursor % n;
      while c != start
        invariant 1 <= d <= n && cursor == start + d && c == Around(n, start, d)
        invariant forall e :: 1 <= e < d ==> !state[Around(n, start, e)]
        decreases n - d
      {
        if state[c] {
          break;
        }
        AroundIsModulo(n, start, d + 1);
        cursor := cursor + 1;
        c := cursor % n;
        d := d + 1;
      }
      cursor := c;
      assert SelectsAfter(state[..], start, c, d);
    }
  }
}
