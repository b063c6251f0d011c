/** Request ids as `Client.nextID` draws them: the decimal text of a 32-bit counter. */
module Ids {
  import opened Basics

  type Id = string

  const DIGITS: string := "0123456789"

  function Decimal(n: nat): (s: Id)
    ensures s != []
  {
    if n < 10 then [DIGITS[n]] else Decimal(n / 10) + [DIGITS[n % 10]]
  }

  function DigitValue(c: char): nat {
    if '0' <= c <= '9' then c as int - '0' as int else 0
  }

  /** The number a decimal text denotes (characters that are not digits count as 0). */
  function Value(s: Id): nat {
    if s == [] then 0 else 10 * Value(s[..|s| - 1]) + DigitValue(s[|s| - 1])
  }

  lemma {:induction false} DecimalRoundTrip(n: nat)
    ensures Value(Decimal(n)) == n
  {
    var s := Decimal(n);
    if n < 10 {
      assert s[..0] == [];
      assert DigitValue(DIGITS[n]) == n;
    } else {
      DecimalRoundTrip(n / 10);
      assert s[..|s| - 1] == Decimal(n / 10);
      assert DigitValue(DIGITS[n % 10]) == n % 10;
    }
  }

  /** The id drawn when the counter stands at `counter`: the counter is a uint32 and wraps. */
  function NextId(counter: nat): Id {
    Decimal((counter + 1) % TWO_32)
  }

  /** The text has no superfluous zero. */
  lemma {:induction false} DecimalIsShort(n: nat)
    ensures |Decimal(n)| > 1 ==> Decimal(n)[0] != '0'
    ensures forall i :: 0 <= i < |Decimal(n)| ==> '0' <= Decimal(n)[i] <= '9'
  {
    if n >= 10 {
      DecimalIsShort(n / 10);
      assert n / 10 < 10 ==> Decimal(n / 10) == [DIGITS[n / 10]];
    }
  }

  /** The ids are the texts of 1, 2, 3 and so on, up to 2^32 - 1, and then of 0 and again of 1. */
  lemma NextIdCounts(counter: nat)
    ensures var n := (counter + 1) % TWO_32;
            Value(NextId(counter)) == n && (counter + 1 < TWO_32 ==> n == counter + 1)
    ensures |NextId(counter)| > 1 ==> NextId(counter)[0] != '0'
    ensures NextId(0) == "1"
  {
    DecimalRoundTrip((counter + 1) % TWO_32);
    DecimalIsShort((counter + 1) % TWO_32);
  }

  /** Two draws give the same id exactly when a multiple of 2^32 draws lies between them. */
  lemma NextIdCollides(j: nat, k: nat)
    ensures NextId(j) == NextId(k) <==> (j - k) % TWO_32 == 0
  {
    DecimalRoundTrip((j + 1) % TWO_32);
    DecimalRoundTrip((k + 1) % TWO_32);
    SameResidue(j + 1, k + 1);
  }

  lemma SameResidue(a: nat, b: nat)
    ensures a % TWO_32 == b % TWO_32 <==> (a - b) % TWO_32 == 0
  {
  }

  /** `id` is one of those that fewer than 2^32 draws can give. */
  ghost predicate Drawable(id: Id) {
    exists k: nat :: k < TWO_32 - 1 && id == NextId(k)
  }

  /** Below 2^32 draws, the next id differs from all ids drawn before. */
  lemma NextIdIsNew(counter: nat)
    requires counter + 1 < TWO_32
    ensures forall k: nat :: k < counter ==> NextId(k) != NextId(counter)
  {
    forall k: nat | k < counter ensures NextId(k) != NextId(counter) {
      NextIdCollides(k, counter);
    }
  }
}
