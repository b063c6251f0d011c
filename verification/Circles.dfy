/** Positions around a circle: the `%` of the code, and what it amounts to. */
module Circles {

  /** The position `d` places after `cursor`, around the circle of `n`. */
  function Around(n: nat, cursor: nat, d: nat): nat
    requires cursor < n && d <= n
  {
    if cursor + d < n then cursor + d else cursor + d - n
  }

  lemma AtLeastOnce(n: nat, k: nat)
    requires k >= 1
    ensures n * k >= n
  {
  }

  lemma QuotientUnique(n: int, q1: int, r1: int, q2: int, r2: int)
    requires n * q1 + r1 == n * q2 + r2 && 0 <= r1 < n && 0 <= r2 < n
    ensures r1 == r2
  {
    if q1 > q2 {
      assert n * (q1 - q2) == n * q1 - n * q2;
      AtLeastOnce(n, q1 - q2);
    } else if q1 < q2 {
      assert n * (q2 - q1) == n * q2 - n * q1;
      AtLeastOnce(n, q2 - q1);
    }
  }

  lemma AroundIsModulo(n: nat, cursor: nat, d: nat)
    requires cursor < n && d <= n
    ensures (cursor + d) % n == Around(n, cursor, d)
  {
    var x := cursor + d;
    QuotientUnique(n, x / n, x % n, if x < n then 0 else 1, Around(n, cursor, d));
  }

  lemma NextResidue(i: nat, k: nat)
    requires k >= 1
    ensures i == 0 ==> i % k == 0
    ensures i > 0 ==> i % k == if (i - 1) % k == k - 1 then 0 else (i - 1) % k + 1
  {
    if i > 0 {
      var q, r := (i - 1) / k, (i - 1) % k;
      if r == k - 1 {
        assert k * (q + 1) == k * q + k;
        QuotientUnique(k, i / k, i % k, q + 1, 0);
      } else {
        QuotientUnique(k, i / k, i % k, q, r + 1);
      }
    }
  }
}
