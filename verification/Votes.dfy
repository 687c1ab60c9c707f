/** Vote summaries: the per-block and total powers of a round's proofs, and the most voted hash. */
module Votes {
  import opened Quorum

  type Hash = string
  type Key = nat

  const NIL_HASH: Hash := ""

  /** A signature proof as the kernel sees it: the candidate keys and the indices that have signed. */
  datatype Proof = Proof(keys: seq<Key>, bits: set<nat>)

  /** The result of one pass over the proofs of a round. */
  datatype Tally = Tally(total: nat, power: map<Hash, nat>, mostVoted: Hash)

  // ----- Lexicographic order on hashes -----

  predicate LexLe(a: Hash, b: Hash) {
    |a| == 0 || (|b| > 0 && (a[0] < b[0] || (a[0] == b[0] && LexLe(a[1..], b[1..]))))
  }

  /** `a` begins `b`, or is less at the first index at which they differ. */
  ghost predicate Before(a: Hash, b: Hash) {
    a <= b || exists i: nat :: LessAt(a, b, i)
  }

  predicate LessAt(a: Hash, b: Hash, i: nat) {
    i < |a| && i < |b| && a[..i] == b[..i] && a[i] < b[i]
  }

  lemma LessAtNext(a: Hash, b: Hash, i: nat)
    requires |a| > 0 && |b| > 0 && a[0] == b[0]
    ensures LessAt(a[1..], b[1..], i) <==> LessAt(a, b, i + 1)
  {
    if i < |a[1..]| && i < |b[1..]| {
      assert a[..i + 1] == [a[0]] + a[1..][..i] && b[..i + 1] == [b[0]] + b[1..][..i];
      assert a[..i + 1] == b[..i + 1] ==> a[1..][..i] == a[..i + 1][1..] == b[..i + 1][1..] == b[1..][..i];
    }
  }

  /** It is the dictionary order. */
  lemma {:induction false} LexMeaning(a: Hash, b: Hash)
    ensures LexLe(a, b) <==> Before(a, b)
  {
    if |a| > 0 && |b| > 0 {
      forall i: nat | LessAt(a, b, i) ensures i == 0 || a[0] == b[0] {
        if i > 0 { assert a[..i][0] == b[..i][0]; }
      }
      if a[0] == b[0] {
        LexMeaning(a[1..], b[1..]);
        assert a == [a[0]] + a[1..] && b == [b[0]] + b[1..];
        forall i: nat ensures LessAt(a[1..], b[1..], i) <==> LessAt(a, b, i + 1) {
          LessAtNext(a, b, i);
        }
        if Before(a, b) && !(a <= b) {
          var i: nat :| LessAt(a, b, i);
          assert LessAt(a[1..], b[1..], i - 1);
        }
      } else {
        assert LessAt(a, b, 0) <==> a[0] < b[0];
      }
    }
  }

  function LexMin(a: Hash, b: Hash): Hash {
    if LexLe(a, b) then a else b
  }

  lemma {:induction false} LexTotal(a: Hash, b: Hash)
    ensures LexLe(a, b) || LexLe(b, a)
    ensures LexLe(a, b) && LexLe(b, a) ==> a == b
  {
    if |a| > 0 && |b| > 0 {
      LexTotal(a[1..], b[1..]);
      assert a == [a[0]] + a[1..] && b == [b[0]] + b[1..];
    }
  }

  lemma {:induction false} LexTransitive(a: Hash, b: Hash, c: Hash)
    requires LexLe(a, b) && LexLe(b, c)
    ensures LexLe(a, c)
  {
    if |a| > 0 && |b| > 0 && |c| > 0 && a[0] == b[0] == c[0] {
      LexTransitive(a[1..], b[1..], c[1..]);
    }
  }

  // ----- What a tally is, independently of the order of the pass -----

  /** Sum of the values of a finite map. */
  ghost function SumOf(m: map<Hash, nat>): nat
    decreases |m|
  {
    if m == map[] then 0
    else
      var k :| k in m;
      RemoveSmaller(m, k);
      m[k] + SumOf(m - {k})
  }

  lemma RemoveSmaller(m: map<Hash, nat>, k: Hash)
    requires k in m
    ensures |m - {k}| < |m|
  {
    assert (m - {k}).Keys == m.Keys - {k};
    assert |m.Keys - {k}| == |m.Keys| - 1;
    assert |(m - {k}).Keys| == |m - {k}| && |m.Keys| == |m|;
  }

  /** The sum does not depend on which element is taken out first. */
  lemma {:induction false} SumRemove(m: map<Hash, nat>, k: Hash)
    requires k in m
    ensures SumOf(m) == m[k] + SumOf(m - {k})
    decreases |m|
  {
    var j :| j in m && SumOf(m) == m[j] + SumOf(m - {j});
    if j != k {
      RemoveSmaller(m, j);
      RemoveSmaller(m, k);
      SumRemove(m - {j}, k);
      SumRemove(m - {k}, j);
      assert (m - {j}) - {k} == (m - {k}) - {j};
    }
  }

  lemma SumInsert(m: map<Hash, nat>, k: Hash, v: nat)
    requires k !in m
    ensures SumOf(m[k := v]) == v + SumOf(m)
  {
    SumRemove(m[k := v], k);
    assert m[k := v] - {k} == m;
  }

  /** `h` is the least hash of maximal power, or nil when nothing has any power. */
  ghost predicate IsMostVoted(power: map<Hash, nat>, h: Hash) {
    if forall k :: k in power ==> power[k] == 0 then h == NIL_HASH
    else
      && h in power
      && power[h] > 0
      && forall k :: k in power ==> power[k] <= power[h] && (power[k] == power[h] ==> LexLe(h, k))
  }

  lemma MostVotedUnique(power: map<Hash, nat>, a: Hash, b: Hash)
    requires IsMostVoted(power, a) && IsMostVoted(power, b)
    ensures a == b
  {
    LexTotal(a, b);
  }

  function BlockPowers(powers: seq<nat>, proofs: map<Hash, Proof>): map<Hash, nat> {
    map h | h in proofs :: Power(powers, proofs[h].bits)
  }

  ghost predicate IsTally(powers: seq<nat>, proofs: map<Hash, Proof>, t: Tally) {
    && t.power == BlockPowers(powers, proofs)
    && t.total == SumOf(t.power)
    && IsMostVoted(t.power, t.mostVoted)
  }

  lemma TallyUnique(powers: seq<nat>, proofs: map<Hash, Proof>, t: Tally, u: Tally)
    requires IsTally(powers, proofs, t) && IsTally(powers, proofs, u)
    ensures t == u
  {
    MostVotedUnique(t.power, t.mostVoted, u.mostVoted);
  }

  /** A most voted hash always exists. */
  lemma {:induction false} MostVotedExists(power: map<Hash, nat>) returns (h: Hash)
    ensures IsMostVoted(power, h)
    decreases |power|
  {
    if power == map[] {
      h := NIL_HASH;
    } else {
      var k :| k in power;
      RemoveSmaller(power, k);
      var rest := power - {k};
      assert forall x :: x in power <==> x in rest || x == k;
      var m := MostVotedExists(rest);
      LexTotal(k, m);
      LexTotal(k, k);
      if power[k] > PowerAt(rest, m) || (power[k] == PowerAt(rest, m) > 0 && LexLe(k, m)) {
        h := k;
        forall x | x in power && power[x] == power[k] ensures LexLe(k, x) {
          if x != k { LexTransitive(k, m, x); }
        }
      } else {
        h := m;
      }
    }
  }

  function PowerAt(power: map<Hash, nat>, h: Hash): nat {
    if h in power then power[h] else 0
  }

  /** The tally of a set of proofs. */
  ghost function TallyOf(powers: seq<nat>, proofs: map<Hash, Proof>): (t: Tally)
    ensures IsTally(powers, proofs, t)
  {
    var power := BlockPowers(powers, proofs);
    assert exists h :: IsMostVoted(power, h) by { var h := MostVotedExists(power); }
    var h :| IsMostVoted(power, h);
    Tally(SumOf(power), power, h)
  }

  // ----- The passes themselves -----

  /** Sum over the set bits of one proof, in index order. */
  method BlockPower(powers: seq<nat>, bits: set<nat>) returns (p: nat)
    ensures p == Power(powers, bits)
  {
    p := 0;
    for i := 0 to |powers|
      invariant p == Power(powers[..i], bits)
    {
      assert powers[..i + 1][..i] == powers[..i];
      if i in bits {
        p := p + powers[i];
      }
    }
    assert powers[..|powers|] == powers;
  }

  /** `maxHash` is the least of the hashes seen with the greatest power, `maxPow`. */
  ghost predicate IsMaxSoFar(power: map<Hash, nat>, maxHash: Hash, maxPow: nat) {
    && (forall k :: k in power ==> power[k] <= maxPow)
    && if maxPow == 0 then maxHash == NIL_HASH
       else maxHash in power && power[maxHash] == maxPow && forall k :: k in power && power[k] == maxPow ==> LexLe(maxHash, k)
  }

  lemma NextMax(power: map<Hash, nat>, maxHash: Hash, maxPow: nat, h: Hash, p: nat)
    requires IsMaxSoFar(power, maxHash, maxPow) && h !in power
    ensures
      if p == maxPow then IsMaxSoFar(power[h := p], LexMin(maxHash, h), maxPow)
      else if p > maxPow then IsMaxSoFar(power[h := p], h, p)
      else IsMaxSoFar(power[h := p], maxHash, maxPow)
  {
    LexTotal(maxHash, h);
    LexTotal(h, h);
    if p == maxPow > 0 {
      forall k | k in power && power[k] == maxPow ensures LexLe(LexMin(maxHash, h), k) {
        if LexLe(h, maxHash) { LexTransitive(h, maxHash, k); }
      }
    }
  }

  /** The block powers recorded while the proofs of `rest` are still to come. */
  ghost predicate PowersSoFar(powers: seq<nat>, proofs: map<Hash, Proof>, rest: set<Hash>, power: map<Hash, nat>) {
    && rest <= proofs.Keys && power.Keys == proofs.Keys - rest
    && forall h :: h in power ==> power[h] == Power(powers, proofs[h].bits)
  }

  lemma PassDone(powers: seq<nat>, proofs: map<Hash, Proof>, power: map<Hash, nat>, maxHash: Hash, maxPow: nat)
    requires PowersSoFar(powers, proofs, {}, power) && IsMaxSoFar(power, maxHash, maxPow)
    ensures Tally(SumOf(power), power, maxHash) == TallyOf(powers, proofs)
  {
    assert power == BlockPowers(powers, proofs);
    TallyUnique(powers, proofs, Tally(SumOf(power), power, maxHash), TallyOf(powers, proofs));
  }

  /** One pass over the proofs, in arbitrary order. Whatever the order, the outcome is the tally. */
  method TallyVotes(powers: seq<nat>, proofs: map<Hash, Proof>) returns (t: Tally)
    ensures IsTally(powers, proofs, t) && t == TallyOf(powers, proofs)
  {
    var total, maxHash, maxPow := 0, NIL_HASH, 0;
    var power: map<Hash, nat> := map[];
    var rest := proofs.Keys;
    while rest != {}
      invariant PowersSoFar(powers, proofs, rest, power)
      invariant total == SumOf(power)
      invariant IsMaxSoFar(power, maxHash, maxPow)
      decreases |rest|
    {
      var h :| h in rest;
      rest := rest - {h};
      var blockPow := BlockPower(powers, proofs[h].bits);
      total := total + blockPow;
      SumInsert(power, h, blockPow);
      NextMax(power, maxHash, maxPow, h, blockPow);
      power := power[h := blockPow];
      if blockPow == maxPow {
        maxHash := LexMin(maxHash, h);
      } else if blockPow > maxPow {
        maxPow := blockPow;
        maxHash := h;
      }
    }
    PassDone(powers, proofs, power, maxHash, maxPow);
    t := Tally(total, power, maxHash);
  }

  // ----- Vote summaries -----

  datatype VoteSummary = VoteSummary(
    available: nat,
    prevotes: Tally,
    precommits: Tally)

  const EMPTY_TALLY := Tally(0, map[], NIL_HASH)

  lemma EmptyTally(powers: seq<nat>)
    ensures IsTally(powers, map[], EMPTY_TALLY)
  {
    assert BlockPowers(powers, map[]) == map[];
  }

  /** `vs` is what a recomputation from the validators and the proofs gives. */
  ghost predicate IsSummary(powers: seq<nat>, prevotes: map<Hash, Proof>, precommits: map<Hash, Proof>,
                            vs: VoteSummary)
  {
    && vs.available == Total(powers)
    && IsTally(powers, prevotes, vs.prevotes)
    && IsTally(powers, precommits, vs.precommits)
  }

  method AvailablePower(powers: seq<nat>) returns (p: nat)
    ensures p == Total(powers)
  {
    p := 0;
    for i := 0 to |powers|
      invariant p == Total(powers[..i])
    {
      assert powers[..i + 1][..i] == powers[..i];
      p := p + powers[i];
    }
    assert powers[..|powers|] == powers;
  }

  /** The power recorded for a hash; absent hashes read as zero, as a map lookup does in the engine. */
  function PowerFor(t: Tally, h: Hash): nat {
    PowerAt(t.power, h)
  }

  /** The most voted hash has at least the power of every other hash. */
  lemma MostVotedIsMaximal(t: Tally, h: Hash)
    requires IsMostVoted(t.power, t.mostVoted)
    ensures PowerFor(t, h) <= PowerFor(t, t.mostVoted)
  {
  }
}
