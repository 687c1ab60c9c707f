/** Leaving a round is safe: once the kernel abandons it, no block of it can still reach a majority. */
module Abandonment {
  import opened Options
  import opened Quorum
  import opened Votes
  import opened Views
  import opened KernelSpec
  import opened KernelInv

  /** Precommits of a round at some later time: everything in `b` and possibly more, each validator
    for one target only. */
  ghost predicate SingleTargetExtension(b: Ballot, later: map<Hash, set<nat>>) {
    && (forall hash :: hash in b.proofs ==> hash in later && b.proofs[hash].bits <= later[hash])
    && (forall g, hash :: g in later && hash in later && g != hash ==> later[g] * later[hash] == {})
  }

  ghost predicate Disjoint(proofs: map<Hash, Proof>) {
    forall g, hash :: g in proofs && hash in proofs && g != hash ==> proofs[g].bits * proofs[hash].bits == {}
  }

  ghost function AllSigners(proofs: map<Hash, Proof>): (r: set<nat>)
    ensures forall i :: i in r <==> exists hash :: hash in proofs && i in proofs[hash].bits
  {
    set hash, i | hash in proofs && i in proofs[hash].bits :: i
  }

  lemma AllSignersSplit(proofs: map<Hash, Proof>, hash: Hash)
    requires Disjoint(proofs) && hash in proofs
    ensures Disjoint(proofs - {hash})
    ensures AllSigners(proofs) == proofs[hash].bits + AllSigners(proofs - {hash})
    ensures proofs[hash].bits * AllSigners(proofs - {hash}) == {}
  {
    var rest := proofs - {hash};
    assert forall g :: g in rest ==> g in proofs && rest[g] == proofs[g];
    forall i | i in AllSigners(rest) ensures i !in proofs[hash].bits {
      var g :| g in rest && i in rest[g].bits;
      assert i !in proofs[g].bits * proofs[hash].bits;
    }
    forall i | i in AllSigners(proofs) && i !in proofs[hash].bits ensures i in AllSigners(rest) {
      var g :| g in proofs && i in proofs[g].bits;
      assert g in rest;
    }
  }

  /** When nobody signed twice, the summed power is the power of those who signed. */
  lemma {:induction false} DisjointPowersAdd(powers: seq<nat>, proofs: map<Hash, Proof>)
    requires Disjoint(proofs)
    ensures SumOf(BlockPowers(powers, proofs)) == Power(powers, AllSigners(proofs))
    decreases |proofs|
  {
    PowerOfNobody(powers);
    if proofs == map[] {
      assert AllSigners(proofs) == {};
      assert BlockPowers(powers, proofs) == map[];
    } else {
      var hash :| hash in proofs;
      var rest := proofs - {hash};
      RemoveProof(proofs, hash);
      AllSignersSplit(proofs, hash);
      DisjointPowersAdd(powers, rest);
      SumRemove(BlockPowers(powers, proofs), hash);
      BlockPowersRemove(powers, proofs, hash);
      PowerOfUnion(powers, proofs[hash].bits, AllSigners(rest));
    }
  }

  lemma BlockPowersRemove(powers: seq<nat>, proofs: map<Hash, Proof>, hash: Hash)
    requires hash in proofs
    ensures BlockPowers(powers, proofs) - {hash} == BlockPowers(powers, proofs - {hash})
  {
  }

  lemma RemoveProof(proofs: map<Hash, Proof>, hash: Hash)
    requires hash in proofs
    ensures |proofs - {hash}| < |proofs|
  {
    assert (proofs - {hash}).Keys == proofs.Keys - {hash};
    assert |proofs.Keys - {hash}| == |proofs.Keys| - 1;
    assert |(proofs - {hash}).Keys| == |proofs - {hash}| && |proofs.Keys| == |proofs|;
  }

  /** When all power has precommitted, nobody can add power to any block. */
  lemma NothingLeftToAdd(v: View, later: map<Hash, set<nat>>, hash: Hash)
    requires SummaryFresh(v) && SingleTargetExtension(v.precommits, later) && hash in later
    requires v.summary.precommits.total == Total(v.vals.powers)
    ensures Power(v.vals.powers, later[hash]) == Power(v.vals.powers, Signers(v.precommits, hash))
  {
    var powers, proofs := v.vals.powers, v.precommits.proofs;
    forall g, x | g in proofs && x in proofs && g != x ensures proofs[g].bits * proofs[x].bits == {} {
      assert later[g] * later[x] == {};
    }
    DisjointPowersAdd(powers, proofs);
    var all, had := AllSigners(proofs), Signers(v.precommits, hash);
    var extra := later[hash] - had;
    forall i | i in all ensures i !in extra {
      var g :| g in proofs && i in proofs[g].bits;
      assert i in later[g];
      assert g != hash ==> i !in later[g] * later[hash];
    }
    assert all * extra == {};
    PowerOfUnion(powers, all, extra);
    PowerOfNobody(powers);
    PowerMonotone(powers, all + extra, all + extra);
    PowerSplit(powers, later[hash], had);
    assert later[hash] * had == had;
  }

  /** The kernel leaves the round on account of its precommits. */
  ghost predicate Abandons(k: K) {
    CheckVotingShift(k) == Ok(AdvanceRound(k))
  }

  /** When it does, no way of completing the round, each validator signing one target, gives a block
    a majority. */
  lemma AbandonmentIsSafe(k: K, later: map<Hash, set<nat>>, hash: Hash)
    requires Inv(k) && Abandons(k)
    requires SingleTargetExtension(k.voting.precommits, later)
    requires hash in later && hash != NIL_HASH
    ensures Total(k.voting.vals.powers) > 0
    ensures Power(k.voting.vals.powers, later[hash]) < ByzantineMajority(Total(k.voting.vals.powers))
  {
    var v := k.voting;
    var powers, t := v.vals.powers, v.summary.precommits;
    var maj := ByzantineMajority(v.summary.available);
    AbandonedHow(k);
    if PowerFor(t, t.mostVoted) < maj {
      NothingLeftToAdd(v, later, hash);
      MostVotedIsMaximal(t, hash);
      if hash !in v.precommits.proofs { PowerOfNobody(powers); }
    } else {
      assert NIL_HASH in v.precommits.proofs;
      var nils := v.precommits.proofs[NIL_HASH].bits;
      PowerMonotone(powers, nils, later[NIL_HASH]);
      assert later[NIL_HASH] * later[hash] == {};
      PowerOfNobody(powers);
      MajorityExcludesRest(powers, later[NIL_HASH], later[hash]);
    }
  }

  /** Why the kernel left the round: everybody precommitted without a majority, or nil has one. */
  lemma AbandonedHow(k: K)
    requires Inv(k) && Abandons(k)
    ensures k.voting.summary.available > 0
    ensures
      var t := k.voting.summary.precommits;
      var maj := ByzantineMajority(k.voting.summary.available);
      || (PowerFor(t, t.mostVoted) < maj && t.total == k.voting.summary.available)
      || (PowerFor(t, t.mostVoted) >= maj && t.mostVoted == NIL_HASH)
  {
    IncrementKeeps(k.(nilVoted := Some(k.voting)));
  }

  // ----- When validators may have signed twice -----

  /** The validators without any vote. */
  ghost function Unsigned(v: View): set<nat> {
    set i | 0 <= i < |v.vals.powers| && i !in AllSigners(v.precommits.proofs)
  }

  ghost function Gained(b: Ballot, later: map<Hash, set<nat>>, hash: Hash): set<nat> {
    (if hash in later then later[hash] else {}) - Signers(b, hash)
  }

  /** Precommits of a round at some later time, whatever was signed before: nothing is lost, and each
    validator who had not signed may have signed for one target. */
  ghost predicate Completion(v: View, later: map<Hash, set<nat>>) {
    && (forall hash :: hash in v.precommits.proofs ==> hash in later && v.precommits.proofs[hash].bits <= later[hash])
    && (forall hash :: Gained(v.precommits, later, hash) <= Unsigned(v))
    && (forall g, hash :: g != hash ==> Gained(v.precommits, later, g) * Gained(v.precommits, later, hash) == {})
  }

  /** No completion gives the block a majority. */
  ghost predicate NeverCommits(v: View, hash: Hash)
    requires Total(v.vals.powers) > 0
  {
    forall later :: Completion(v, later) && hash in later ==>
      Power(v.vals.powers, later[hash]) < ByzantineMajority(Total(v.vals.powers))
  }

  /** The power a block could still have: who signed for it and who has not signed at all. */
  ghost function Reachable(v: View, hash: Hash): nat {
    Power(v.vals.powers, Signers(v.precommits, hash) + Unsigned(v))
  }

  /** The completion in which everybody who has not signed signs for the block. */
  ghost function AllFor(v: View, hash: Hash): map<Hash, set<nat>> {
    (map g | g in v.precommits.proofs :: v.precommits.proofs[g].bits)[hash := Signers(v.precommits, hash) + Unsigned(v)]
  }

  lemma AllForCompletes(v: View, hash: Hash)
    ensures Completion(v, AllFor(v, hash))
  {
    var later := AllFor(v, hash);
    forall g ensures g != hash ==> Gained(v.precommits, later, g) == {} {
    }
  }

  /** Leaving the round is safe for a block exactly when those who signed for it and those who have not
    signed at all hold less than a majority together - however the round was abandoned, and whoever
    signed twice. */
  lemma AbandonmentSafeIff(k: K, hash: Hash)
    requires Inv(k) && Abandons(k) && hash != NIL_HASH
    ensures Total(k.voting.vals.powers) > 0
    ensures NeverCommits(k.voting, hash) <==> Reachable(k.voting, hash) < ByzantineMajority(Total(k.voting.vals.powers))
  {
    var v := k.voting;
    AbandonedHow(k);
    AllForCompletes(v, hash);
    if Reachable(v, hash) < ByzantineMajority(Total(v.vals.powers)) {
      forall later | Completion(v, later) && hash in later
        ensures Power(v.vals.powers, later[hash]) < ByzantineMajority(Total(v.vals.powers))
      {
        assert Gained(v.precommits, later, hash) <= Unsigned(v);
        PowerMonotone(v.vals.powers, later[hash], Signers(v.precommits, hash) + Unsigned(v));
      }
    } else {
      assert AllFor(v, hash)[hash] == Signers(v.precommits, hash) + Unsigned(v);
    }
  }

  /** Where nobody signed twice, the condition holds for every block of an abandoned round. */
  lemma SingleTargetsSuffice(k: K, hash: Hash)
    requires Inv(k) && Abandons(k) && hash != NIL_HASH && Disjoint(k.voting.precommits.proofs)
    ensures Total(k.voting.vals.powers) > 0
    ensures Reachable(k.voting, hash) < ByzantineMajority(Total(k.voting.vals.powers))
  {
    var proofs, later := k.voting.precommits.proofs, AllFor(k.voting, hash);
    forall g, x | g in later && x in later && g != x ensures later[g] * later[x] == {} {
      DisjointLater(k.voting, hash, g, x);
    }
    AbandonmentIsSafe(k, later, hash);
  }

  lemma DisjointLater(v: View, hash: Hash, g: Hash, x: Hash)
    requires Disjoint(v.precommits.proofs) && g in AllFor(v, hash) && x in AllFor(v, hash) && g != x
    ensures AllFor(v, hash)[g] * AllFor(v, hash)[x] == {}
  {
    var later, proofs := AllFor(v, hash), v.precommits.proofs;
    NotAmongOthers(v, hash, if g == hash then x else g);
    assert later[hash] == Signers(v.precommits, hash) + Unsigned(v);
    if g != hash && x != hash {
      assert later[g] == proofs[g].bits && later[x] == proofs[x].bits;
    }
  }

  /** Neither the block's own signers nor those without a vote signed for another target. */
  lemma NotAmongOthers(v: View, hash: Hash, x: Hash)
    requires Disjoint(v.precommits.proofs) && x != hash && x in v.precommits.proofs
    ensures (Signers(v.precommits, hash) + Unsigned(v)) * v.precommits.proofs[x].bits == {}
  {
    var proofs := v.precommits.proofs;
    assert forall i :: i in proofs[x].bits ==> i in AllSigners(proofs);
    assert hash in proofs ==> proofs[hash].bits * proofs[x].bits == {};
  }

  // ----- Where it fails -----

  const FOUR := ValSet([10, 11, 12, 13], [1, 1, 1, 1])

  /** Votes of three of four validators, the first of whom signed for both blocks. */
  function TwiceSigned(): map<Hash, VoteUpdate> {
    map["a" := VoteUpdate(Proof(FOUR.keys, {0, 1}), 0), "b" := VoteUpdate(Proof(FOUR.keys, {0, 2}), 0)]
  }

  /** Four validators of power 1, of which one - less than a Byzantine minority - signs both `a` and `b`.
    The first submission of these votes makes the kernel abandon the round, for the test for full
    participation counts a validator once per target. Yet the fourth validator has not voted and can
    still complete a majority for `a`. */
  lemma EquivocationBreaksAbandonment()
    ensures Power(FOUR.powers, {0}) < ByzantineMinority(Total(FOUR.powers))
    ensures StoreVotes(InitialK(1, FOUR), VotingView, Precommit, TwiceSigned()).Ok?
    ensures
      var k := StoreVotes(InitialK(1, FOUR), VotingView, Precommit, TwiceSigned()).value;
      && Inv(k) && Abandons(k)
      && AddVotes(InitialK(1, FOUR), Precommit, 1, 0, TwiceSigned()) == Ok((AdvanceRound(k), Accepted))
      && !NeverCommits(k.voting, "a")
  {
    FourOnes({0});
    TwiceSignedStored();
    TwiceSignedAbandons();
    var k := StoreVotes(InitialK(1, FOUR), VotingView, Precommit, TwiceSigned()).value;
    AbandonmentSafeIff(k, "a");
    TwiceSignedReaches(k.voting);
  }

  lemma TwiceSignedAbandons()
    requires StoreVotes(InitialK(1, FOUR), VotingView, Precommit, TwiceSigned()).Ok?
    ensures
      var k := StoreVotes(InitialK(1, FOUR), VotingView, Precommit, TwiceSigned()).value;
      && Inv(k) && Abandons(k)
      && AddVotes(InitialK(1, FOUR), Precommit, 1, 0, TwiceSigned()) == Ok((AdvanceRound(k), Accepted))
  {
    var k0 := InitialK(1, FOUR);
    InitiallyHolds(1, FOUR);
    StoreVotesKeeps(k0, VotingView, Precommit, TwiceSigned());
    TwiceSignedStored();
    TwiceSignedTally();
    var k := StoreVotes(k0, VotingView, Precommit, TwiceSigned()).value;
    TallyUnique(FOUR.powers, TwiceProofs(), k.voting.summary.precommits, TwiceTally());
    FullWithoutMajority(k);
    assert FindView(k0, 1, 0) == Found(VotingView);
  }

  lemma FullWithoutMajority(k: K)
    requires
      var vs := k.voting.summary;
      && vs.available > 0 && vs.precommits.total == vs.available
      && PowerFor(vs.precommits, vs.precommits.mostVoted) < ByzantineMajority(vs.available)
    ensures Abandons(k)
  {
  }

  lemma TwiceSignedReaches(v: View)
    requires v.vals == FOUR && v.precommits.proofs == TwiceProofs()
    ensures Total(FOUR.powers) == 4 && Reachable(v, "a") >= ByzantineMajority(Total(FOUR.powers))
  {
    assert AllSigners(v.precommits.proofs) == {0, 1, 2} by {
      assert "a" in TwiceProofs() && "b" in TwiceProofs();
    }
    assert Unsigned(v) == {3};
    FourOnes({0, 1, 3});
    assert Signers(v.precommits, "a") + Unsigned(v) == {0, 1, 3};
  }

  function TwiceProofs(): map<Hash, Proof> {
    map["a" := Proof(FOUR.keys, {0, 1}), "b" := Proof(FOUR.keys, {0, 2})]
  }

  function TwiceTally(): Tally {
    Tally(4, map["a" := 2, "b" := 2], "a")
  }

  lemma TwiceSignedStored()
    ensures StoreVotes(InitialK(1, FOUR), VotingView, Precommit, TwiceSigned()).Ok?
    ensures AllApply(InitialK(1, FOUR).voting.precommits, TwiceSigned())
    ensures
      var v := StoreVotes(InitialK(1, FOUR), VotingView, Precommit, TwiceSigned()).value.voting;
      && v.precommits.proofs == TwiceProofs() && v.vals == FOUR
      && v.summary.available == Total(FOUR.powers)
  {
    var b := InitialK(1, FOUR).voting.precommits;
    assert b == EMPTY_BALLOT;
    assert Applies(b, TwiceSigned(), "a");
    assert ApplyUpdates(b, TwiceSigned()).proofs == TwiceProofs();
  }

  lemma TwiceSignedTally()
    ensures IsTally(FOUR.powers, TwiceProofs(), TwiceTally())
    ensures PowerFor(TwiceTally(), "a") < ByzantineMajority(Total(FOUR.powers)) && Total(FOUR.powers) == 4
  {
    FourOnes({0, 1});
    FourOnes({0, 2});
    var m := BlockPowers(FOUR.powers, TwiceProofs());
    assert m == map["a" := 2, "b" := 2];
    SumRemove(m, "a");
    assert m - {"a"} == map["b" := 2];
    SumRemove(map["b" := 2], "b");
    assert map["b" := 2] - {"b"} == map[];
  }

  lemma FourOnes(bits: set<nat>)
    ensures Total([1, 1, 1, 1]) == 4
    ensures Power([1, 1, 1, 1], bits)
         == One(0 in bits) + One(1 in bits) + One(2 in bits) + One(3 in bits)
  {
    var p: seq<nat> := [1, 1, 1, 1];
    assert p[..3] == [1, 1, 1] && p[..3][..2] == [1, 1] && p[..3][..2][..1] == [1];
    assert Power([1], bits) == One(0 in bits) && Total([1]) == 1;
    assert Power([1, 1], bits) == Power([1], bits) + One(1 in bits) by { assert [1, 1][..1] == [1]; }
    assert Total([1, 1]) == 2 by { assert [1, 1][..1] == [1]; }
    assert Power([1, 1, 1], bits) == Power([1, 1], bits) + One(2 in bits) by { assert [1, 1, 1][..2] == [1, 1]; }
    assert Total([1, 1, 1]) == 3 by { assert [1, 1, 1][..2] == [1, 1]; }
  }
}
