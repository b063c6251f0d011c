/** Small shared vocabulary: optional values and the errors the client and handlers hand around. */
module Basics {

  datatype Option<+T> = None | Some(value: T)

  /** The named errors of the package, and any error that comes from outside it. */
  datatype Error =
    | ErrClientQuit
    | ErrClientReconnected
    | ErrDead
    | ErrNoResult
    | ErrSubscriptionQueueOverflow
    | ErrSubscriptionNotFound
    | ErrContext
    | ErrOther(text: string)

  const TWO_32: nat := 0x1_0000_0000
  const TWO_63: nat := 0x8000_0000_0000_0000
  const TWO_64: nat := 0x1_0000_0000_0000_0000

  /** Elements of `s` are pairwise different. */
  ghost predicate Distinct<T>(s: seq<T>) {
    forall i, j :: 0 <= i < j < |s| ==> s[i] != s[j]
  }

  /** The set of elements of `s`. */
  ghost function Elements<T>(s: seq<T>): set<T> {
    set x | x in s
  }

  /** A sequence without repetitions is as long as its set of elements. */
  lemma {:induction false} DistinctSize<T>(s: seq<T>)
    requires Distinct(s)
    ensures |Elements(s)| == |s|
  {
    if s != [] {
      var init, last := s[..|s| - 1], s[|s| - 1];
      DistinctSize(init);
      assert Elements(s) == Elements(init) + {last};
      assert last !in Elements(init);
    }
  }

  /** Pigeonhole: different elements drawn from `t` are at most as many as `t` has places. */
  lemma DistinctBound<T>(s: seq<T>, t: seq<T>)
    requires Distinct(s)
    requires forall x :: x in s ==> x in t
    ensures |s| <= |t|
    ensures |s| == |t| ==> forall x :: x in t ==> x in s
  {
    DistinctSize(s);
    ElementsBound(t);
    SubsetSize(Elements(s), Elements(t));
    if |s| == |t| {
      forall x | x in t ensures x in s {
        assert x in Elements(t);
      }
    }
  }

  lemma {:induction false} ElementsBound<T>(s: seq<T>)
    ensures |Elements(s)| <= |s|
  {
    if s != [] {
      var init, last := s[..|s| - 1], s[|s| - 1];
      ElementsBound(init);
      assert Elements(s) == Elements(init) + {last};
    }
  }

  lemma {:induction false} SubsetSize<T>(a: set<T>, b: set<T>)
    requires a <= b
    ensures |a| <= |b|
    ensures |a| == |b| ==> a == b
  {
    if a != {} {
      var x :| x in a;
      SubsetSize(a - {x}, b - {x});
      assert |b - {x}| == |b| - 1 && |a - {x}| == |a| - 1;
    }
  }

  predicate HasSuffix(s: string, suffix: string): (r: bool)
    ensures r <==> exists p :: s == p + suffix
  {
    assert |suffix| <= |s| ==> s == s[..|s| - |suffix|] + s[|s| - |suffix|..];
    |suffix| <= |s| && s[|s| - |suffix|..] == suffix
  }
}
