/** What the first step of a round means in terms of who voted for what. */
module FirstStep {
  import opened Options
  import opened Quorum
  import opened Votes
  import opened Views
  import opened RoundSpec

  /** The signers of one target hold a majority of the power. */
  ghost predicate HasMajority(v: View, kind: Kind, hash: Hash)
    requires Total(v.vals.powers) > 0
  {
    Power(v.vals.powers, Signers(BallotOf(v, kind), hash)) >= ByzantineMajority(Total(v.vals.powers))
  }

  ghost predicate SomeMajority(v: View, kind: Kind)
    requires Total(v.vals.powers) > 0
  {
    exists hash :: HasMajority(v, kind, hash)
  }

  /** The power behind all votes of a kind, a validator counting once per target. */
  ghost function VotedPower(v: View, kind: Kind): nat {
    SumOf(BlockPowers(v.vals.powers, BallotOf(v, kind).proofs))
  }

  function TallyFor(v: View, kind: Kind): Tally {
    if kind.Prevote? then v.summary.prevotes else v.summary.precommits
  }

  /** Looking at the most voted target alone tells whether any target has a majority, and such a target
    makes the sum of all votes a majority too. */
  lemma MostVotedDecides(v: View, kind: Kind)
    requires SummaryFresh(v) && v.summary.available > 0
    ensures
      var t := TallyFor(v, kind);
      var maj := ByzantineMajority(v.summary.available);
      && t.total == VotedPower(v, kind)
      && (PowerFor(t, t.mostVoted) >= maj <==> SomeMajority(v, kind))
      && (SomeMajority(v, kind) ==> t.total >= maj)
  {
    var t := TallyFor(v, kind);
    var b := BallotOf(v, kind);
    PowerOfNobody(v.vals.powers);
    if PowerFor(t, t.mostVoted) >= ByzantineMajority(v.summary.available) {
      assert HasMajority(v, kind, t.mostVoted);
    }
    if SomeMajority(v, kind) {
      var hash :| HasMajority(v, kind, hash);
      assert hash in b.proofs;
      MostVotedIsMaximal(t, hash);
      SumRemove(t.power, hash);
    }
  }

  /** The first step of a round, told by who voted for what. */
  lemma StepMeaning(v: View)
    requires SummaryFresh(v) && v.summary.available > 0
    ensures
      var maj, min := ByzantineMajority(v.summary.available), ByzantineMinority(v.summary.available);
      var step := StepFromVotes(v.summary);
      && (step.CommitWait? <==> SomeMajority(v, Precommit))
      && (step.PrecommitDelay? <==> VotedPower(v, Precommit) >= maj && !SomeMajority(v, Precommit))
      && (step.AwaitingPrecommits? <==>
            VotedPower(v, Precommit) < maj && (VotedPower(v, Precommit) >= min || SomeMajority(v, Prevote)))
      && (step.PrevoteDelay? <==>
            VotedPower(v, Precommit) < min && VotedPower(v, Prevote) >= maj && !SomeMajority(v, Prevote))
      && (step.AwaitingProposal? <==> VotedPower(v, Precommit) < min && VotedPower(v, Prevote) < maj)
  {
    MostVotedDecides(v, Prevote);
    MostVotedDecides(v, Precommit);
  }

  // ----- More votes -----

  /** The same validators, and every target has at least the signers it had. */
  ghost predicate MoreVotes(v: View, w: View) {
    && w.vals == v.vals
    && forall kind, hash :: Signers(BallotOf(v, kind), hash) <= Signers(BallotOf(w, kind), hash)
  }

  lemma {:induction false} SumMonotone(m: map<Hash, nat>, n: map<Hash, nat>)
    requires forall k :: k in m ==> m[k] <= PowerAt(n, k)
    ensures SumOf(m) <= SumOf(n)
    decreases |m|
  {
    if m != map[] {
      var k :| k in m;
      RemoveSmaller(m, k);
      SumRemove(m, k);
      if k in n {
        SumMonotone(m - {k}, n - {k});
        SumRemove(n, k);
      } else {
        SumMonotone(m - {k}, n);
      }
    }
  }

  lemma MorePower(v: View, w: View, kind: Kind)
    requires MoreVotes(v, w) && Total(v.vals.powers) > 0
    ensures VotedPower(v, kind) <= VotedPower(w, kind)
    ensures SomeMajority(v, kind) ==> SomeMajority(w, kind)
  {
    var powers := v.vals.powers;
    var b, c := BallotOf(v, kind), BallotOf(w, kind);
    PowerOfNobody(powers);
    forall hash ensures Power(powers, Signers(b, hash)) <= Power(powers, Signers(c, hash)) {
      PowerMonotone(powers, Signers(b, hash), Signers(c, hash));
    }
    var m, n := BlockPowers(powers, b.proofs), BlockPowers(powers, c.proofs);
    forall hash | hash in m ensures m[hash] <= PowerAt(n, hash) {
      assert m[hash] == Power(powers, Signers(b, hash)) && PowerAt(n, hash) == Power(powers, Signers(c, hash));
    }
    SumMonotone(m, n);
    if SomeMajority(v, kind) {
      var hash :| HasMajority(v, kind, hash);
      assert HasMajority(w, kind, hash);
    }
  }

  /** More votes never put a round at an earlier step. */
  lemma MoreVotesNoEarlier(v: View, w: View)
    requires SummaryFresh(v) && SummaryFresh(w) && v.summary.available > 0 && MoreVotes(v, w)
    ensures w.summary.available > 0
    ensures Rank(StepFromVotes(v.summary)) <= Rank(StepFromVotes(w.summary))
  {
    StepMeaning(v);
    StepMeaning(w);
    MorePower(v, w, Prevote);
    MorePower(v, w, Precommit);
  }
}
