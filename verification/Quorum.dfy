/** Voting-power thresholds and sums of voting power.

  A validator set is seen here only through the powers of its validators, in validator order;
  a set of voters is the set of their indices, as in the engine's signature bit sets. */
module Quorum {

  /** The least power that exceeds two thirds of `n`. */
  function ByzantineMajority(n: nat): (m: nat)
    requires n > 0
    ensures 3 * m > 2 * n && 3 * (m - 1) <= 2 * n
    ensures m <= n
  {
    var quo, rem := n / 3, n % 3;
    if rem < 2 then 2 * quo + 1 else 2 * quo + 2
  }

  /** The least power that reaches one third of `n`. */
  function ByzantineMinority(n: nat): (m: nat)
    requires n > 0
    ensures 3 * m >= n && 3 * (m - 1) < n
    ensures 0 < m <= ByzantineMajority(n)
  {
    var quo, rem := n / 3, n % 3;
    if rem == 0 then quo else quo + 1
  }

  /** The power of the voters in `bits`; indices past the end carry no power. */
  function Power(powers: seq<nat>, bits: set<nat>): nat {
    if |powers| == 0 then 0
    else
      var last := |powers| - 1;
      Power(powers[..last], bits) + if last in bits then powers[last] else 0
  }

  function One(b: bool): nat {
    if b then 1 else 0
  }

  function Total(powers: seq<nat>): nat {
    if |powers| == 0 then 0 else Total(powers[..|powers| - 1]) + powers[|powers| - 1]
  }

  lemma {:induction false} PowerOfNobody(powers: seq<nat>)
    ensures Power(powers, {}) == 0
  {
    if |powers| > 0 { PowerOfNobody(powers[..|powers| - 1]); }
  }

  lemma {:induction false} PowerOfUnion(powers: seq<nat>, a: set<nat>, b: set<nat>)
    ensures Power(powers, a) + Power(powers, b) == Power(powers, a + b) + Power(powers, a * b)
  {
    if |powers| > 0 {
      PowerOfUnion(powers[..|powers| - 1], a, b);
    }
  }

  lemma {:induction false} PowerMonotone(powers: seq<nat>, a: set<nat>, b: set<nat>)
    requires forall i :: 0 <= i < |powers| && i in a ==> i in b
    ensures Power(powers, a) <= Power(powers, b) <= Total(powers)
  {
    if |powers| > 0 {
      PowerMonotone(powers[..|powers| - 1], a, b);
    }
  }

  /** Removing voters removes exactly their power. */
  lemma {:induction false} PowerSplit(powers: seq<nat>, a: set<nat>, b: set<nat>)
    ensures Power(powers, a) == Power(powers, a * b) + Power(powers, a - b)
  {
    if |powers| > 0 {
      PowerSplit(powers[..|powers| - 1], a, b);
    }
  }

  /** Two majorities of one validator set share at least a Byzantine minority of its power. */
  lemma MajoritiesIntersect(powers: seq<nat>, a: set<nat>, b: set<nat>)
    requires Total(powers) > 0
    requires Power(powers, a) >= ByzantineMajority(Total(powers))
    requires Power(powers, b) >= ByzantineMajority(Total(powers))
    ensures Power(powers, a * b) >= ByzantineMinority(Total(powers))
  {
    PowerOfUnion(powers, a, b);
    PowerMonotone(powers, a + b, a + b);
  }

  /** Disjoint voters cannot both hold a majority, and one majority leaves less than a majority. */
  lemma MajorityExcludesRest(powers: seq<nat>, a: set<nat>, b: set<nat>)
    requires Total(powers) > 0
    requires Power(powers, a * b) == 0
    requires Power(powers, a) >= ByzantineMajority(Total(powers))
    ensures Power(powers, b) < ByzantineMajority(Total(powers))
  {
    PowerOfUnion(powers, a, b);
    PowerMonotone(powers, a + b, a + b);
  }
}
