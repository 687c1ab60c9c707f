/** Which votes move the views, told by who signed for what. */
module Thresholds {
  import opened Options
  import opened Quorum
  import opened Votes
  import opened Views
  import opened KernelSpec
  import opened KernelInv
  import opened MirrorSystem
  import opened MirrorRuns
  import opened FirstStep

  // ----- One vote addition -----

  /** The view with the updates whose version still holds; its summary is of no concern here. */
  function With(v: View, kind: Kind, updates: map<Hash, VoteUpdate>): View {
    WithBallot(v, kind, ApplyUpdates(BallotOf(v, kind), updates))
  }

  lemma VotingTouched(k: K, w: View)
    ensures
      var k1 := Touch(k, VotingView, w);
      && k1 == k.(voting := Bump(w), gossipV := k1.gossipV, sm := k1.sm)
      && k1.sm == k.sm.(outgoing := if Matches(w, k.sm.h, k.sm.r) then Bump(w) else k.sm.outgoing)
  {
  }

  lemma NextTouched(k: K, w: View)
    ensures var k1 := Touch(k, NextRoundView, w); k1 == k.(nextRound := Bump(w), gossipN := k1.gossipN)
  {
  }

  /** Everything but summary and version. */
  predicate SameVotes(v: View, w: View) {
    v == w.(summary := v.summary, version := v.version)
  }

  lemma ResummarizedVotes(v: View, kind: Kind, updates: map<Hash, VoteUpdate>)
    ensures SameVotes(Bump(Resummarize(With(v, kind, updates), kind)), With(v, kind, updates))
  {
  }

  lemma NothingApplied(b: Ballot, updates: map<Hash, VoteUpdate>)
    requires !AnyApplies(b, updates)
    ensures ApplyUpdates(b, updates) == b
  {
  }

  lemma StoredInVoting(k: K, kind: Kind, updates: map<Hash, VoteUpdate>)
    requires Inv(k)
    ensures StoreVotes(k, VotingView, kind, updates).Ok?
    ensures
      var k1 := StoreVotes(k, VotingView, kind, updates).value;
      && SameVotes(k1.voting, With(k.voting, kind, updates)) && Inv(k1)
      && k1 == k.(voting := k1.voting, gossipV := k1.gossipV, sm := k.sm.(outgoing := k1.sm.outgoing))
  {
    StoreVotesKeeps(k, VotingView, kind, updates);
    var w := With(k.voting, kind, updates);
    VotingTouched(k, Resummarize(w, kind));
    ResummarizedVotes(k.voting, kind, updates);
    if !AnyApplies(BallotOf(k.voting, kind), updates) { NothingApplied(BallotOf(k.voting, kind), updates); }
  }

  lemma StoredInNext(k: K, kind: Kind, updates: map<Hash, VoteUpdate>)
    requires Inv(k)
    ensures StoreVotes(k, NextRoundView, kind, updates).Ok?
    ensures
      var k1 := StoreVotes(k, NextRoundView, kind, updates).value;
      && SameVotes(k1.nextRound, With(k.nextRound, kind, updates)) && Inv(k1)
      && k1 == k.(nextRound := k1.nextRound, gossipN := k1.gossipN)
  {
    StoreVotesKeeps(k, NextRoundView, kind, updates);
    var w := With(k.nextRound, kind, updates);
    NextTouched(k, Resummarize(w, kind));
    ResummarizedVotes(k.nextRound, kind, updates);
    if !AnyApplies(BallotOf(k.nextRound, kind), updates) { NothingApplied(BallotOf(k.nextRound, kind), updates); }
  }

  /** At least a third of the power, a validator counting once per target. */
  ghost predicate ThirdVoted(v: View, kind: Kind) {
    3 * VotedPower(v, kind) >= Total(v.vals.powers)
  }

  lemma SameMeaning(v: View, w: View, kind: Kind)
    requires SameVotes(v, w) && Total(v.vals.powers) > 0
    ensures VotedPower(v, kind) == VotedPower(w, kind) && (SomeMajority(v, kind) <==> SomeMajority(w, kind))
    ensures forall hash :: HasMajority(v, kind, hash) <==> HasMajority(w, kind, hash)
  {
    forall hash ensures HasMajority(v, kind, hash) <==> HasMajority(w, kind, hash) {
    }
  }

  /** No headers and no votes. */
  predicate FreshNext(v: View) {
    v.headers == [] && v.prevotes == EMPTY_BALLOT && v.precommits == EMPTY_BALLOT
  }

  /** What a jump leaves. */
  predicate Jumped(k: K, k': K) {
    && Matches(k'.voting, k.voting.h, k.voting.r + 1)
    && k'.committing == k.committing && k'.nilVoted == k.nilVoted && k'.log == k.log && FreshNext(k'.nextRound)
    && k'.sm.h == k.sm.h && k'.sm.r == k.sm.r
    && k'.sm.jumpAhead == if k.sm.h == k.voting.h && k.sm.r == k.voting.r then Some(k'.voting) else k.sm.jumpAhead
  }

  lemma JumpRoundTells(k: K)
    requires Aligned(k)
    ensures Jumped(k, JumpRound(k)) && SameVotes(JumpRound(k).voting, k.nextRound)
  {
  }

  lemma NextCheckMeaning(k: K, kind: Kind)
    requires Inv(k) && Total(k.nextRound.vals.powers) > 0
    ensures
      var o := CheckShift(k, NextRoundView, kind);
      && (o.Ok? <==> !(kind.Precommit? && SomeMajority(k.nextRound, Precommit)))
      && (o.Ok? ==> o.value == if ThirdVoted(k.nextRound, kind) then JumpRound(k) else k)
  {
    MostVotedDecides(k.nextRound, kind);
  }

  lemma AcceptedNext(k: K, kind: Kind, updates: map<Hash, VoteUpdate>)
    requires Inv(k) && AllApply(BallotOf(k.nextRound, kind), updates)
    requires StoreVotes(k, NextRoundView, kind, updates).Ok?
    ensures
      var o := CheckShift(StoreVotes(k, NextRoundView, kind, updates).value, NextRoundView, kind);
      AddVotes(k, kind, k.nextRound.h, k.nextRound.r, updates) == if o.Ok? then Ok((o.value, Accepted)) else Stuck
  {
    assert FindView(k, k.nextRound.h, k.nextRound.r) == Found(NextRoundView);
  }

  /** Votes for the next round move voting one round on exactly when a third of the power voted there; and a
    state machine left behind is told to jump. A majority of precommits there is a panic. */
  lemma NextRoundVotesMove(k: K, kind: Kind, updates: map<Hash, VoteUpdate>)
    requires Inv(k) && Total(k.nextRound.vals.powers) > 0 && AllApply(BallotOf(k.nextRound, kind), updates)
    ensures
      var w := With(k.nextRound, kind, updates);
      var o := AddVotes(k, kind, k.nextRound.h, k.nextRound.r, updates);
      && (o.Ok? <==> !(kind.Precommit? && SomeMajority(w, Precommit)))
      && (o.Ok? && ThirdVoted(w, kind) ==> Jumped(k, o.value.0) && SameVotes(o.value.0.voting, w))
      && (o.Ok? && !ThirdVoted(w, kind) ==> o.value.0.voting == k.voting && SameVotes(o.value.0.nextRound, w) && o.value.0.sm == k.sm)
      && (o.Ok? ==> o.value.1 == Accepted)
  {
    StoredInNext(k, kind, updates);
    AcceptedNext(k, kind, updates);
    var k1 := StoreVotes(k, NextRoundView, kind, updates).value;
    SameMeaning(k1.nextRound, With(k.nextRound, kind, updates), kind);
    NextCheckMeaning(k1, kind);
    JumpRoundTells(k1);
    JumpedFrom(k, k1, JumpRound(k1));
  }

  lemma JumpedFrom(k: K, k1: K, k2: K)
    requires Jumped(k1, k2) && k1.voting == k.voting && k1.sm == k.sm
    requires k1.committing == k.committing && k1.nilVoted == k.nilVoted && k1.log == k.log
    ensures Jumped(k, k2)
  {
  }

  // ----- Precommits of the voting round -----

  /** The target ahead in precommits: the least hash of maximal power, nil when nobody voted. */
  ghost function Ahead(v: View): Hash {
    TallyOf(v.vals.powers, v.precommits.proofs).mostVoted
  }

  ghost predicate AheadWins(v: View)
    requires Total(v.vals.powers) > 0
  {
    HasMajority(v, Precommit, Ahead(v))
  }

  predicate HasHeader(v: View, hash: Hash) {
    exists i :: 0 <= i < |v.headers| && v.headers[i].header.hash == hash
  }

  /** A majority precommitted a block whose header is known. */
  ghost predicate Commits(v: View)
    requires Total(v.vals.powers) > 0
  {
    AheadWins(v) && Ahead(v) != NIL_HASH && HasHeader(v, Ahead(v))
  }

  /** A majority precommitted nil, or all power is in and no target has a majority. */
  ghost predicate GivesUp(v: View)
    requires Total(v.vals.powers) > 0
  {
    || (AheadWins(v) && Ahead(v) == NIL_HASH)
    || (!SomeMajority(v, Precommit) && VotedPower(v, Precommit) == Total(v.vals.powers))
  }

  /** The first header with the hash. */
  predicate IsFirst(headers: seq<ProposedHeader>, hash: Hash, i: int) {
    0 <= i < |headers| && headers[i].header.hash == hash && forall j :: 0 <= j < i ==> headers[j].header.hash != hash
  }

  lemma {:induction false} FoundIff(headers: seq<ProposedHeader>, hash: Hash)
    ensures FindHeader(headers, hash).Some? <==> exists i :: 0 <= i < |headers| && headers[i].header.hash == hash
    ensures FindHeader(headers, hash).Some? ==>
      FindHeader(headers, hash).value.hash == hash && exists i :: IsFirst(headers, hash, i) && headers[i].header == FindHeader(headers, hash).value
  {
    if |headers| > 0 {
      if headers[0].header.hash != hash {
        FoundIff(headers[1..], hash);
        if FindHeader(headers[1..], hash).Some? {
          var i :| IsFirst(headers[1..], hash, i) && headers[1..][i].header == FindHeader(headers[1..], hash).value;
          forall j | 0 <= j < i + 1 ensures headers[j].header.hash != hash {
            if j > 0 { assert headers[1..][j - 1] == headers[j]; }
          }
          assert IsFirst(headers, hash, i + 1) && headers[i + 1].header == FindHeader(headers, hash).value;
        }
        forall i | 0 <= i < |headers| && headers[i].header.hash == hash ensures FindHeader(headers[1..], hash).Some? {
          assert headers[1..][i - 1] == headers[i];
        }
      } else {
        assert IsFirst(headers, hash, 0);
      }
    }
  }

  lemma SummaryAhead(v: View)
    requires SummaryFresh(v) && v.summary.available > 0
    ensures v.summary.precommits.mostVoted == Ahead(v)
    ensures AheadWins(v) <==> PowerFor(v.summary.precommits, Ahead(v)) >= ByzantineMajority(v.summary.available)
    ensures AheadWins(v) <==> SomeMajority(v, Precommit)
    ensures v.summary.precommits.total == VotedPower(v, Precommit)
  {
    TallyUnique(v.vals.powers, v.precommits.proofs, v.summary.precommits, TallyOf(v.vals.powers, v.precommits.proofs));
    MostVotedDecides(v, Precommit);
    PowerOfNobody(v.vals.powers);
    assert PowerFor(v.summary.precommits, Ahead(v)) == Power(v.vals.powers, Signers(v.precommits, Ahead(v)));
  }

  /** What happened to the voting round: its block was committed, it was left, or voting goes on. */
  ghost predicate CommittedTo(k: K, k': K, hash: Hash) {
    && k'.voting.h == k.voting.h + 1 && k'.voting.r == 0
    && Matches(k'.committing, k.voting.h, k.voting.r)
    && k'.committingHeader.Some? && k'.committingHeader.value.hash == hash
    && (exists i :: IsFirst(k.voting.headers, hash, i) && k.voting.headers[i].header == k'.committingHeader.value)
    && k'.voting.vals == k'.committingHeader.value.nextVals
    && SameVotes(k'.committing, k.voting)
    && k'.log == k.log + [Commit(k.voting.h, k.voting.r, hash, k.voting.vals, Signers(k.voting.precommits, hash))]
    && FreshNext(k'.voting) && FreshNext(k'.nextRound) && k'.nilVoted == k.nilVoted
  }

  predicate LeftFor(k: K, k': K) {
    && Matches(k'.voting, k.voting.h, k.voting.r + 1) && k'.nilVoted == Some(k.voting)
    && k'.committing == k.committing && SameVotes(k'.voting, k.nextRound) && k'.log == k.log
    && FreshNext(k'.nextRound) && k'.nextRound.vals == k.nextRound.vals
  }

  lemma VotingCheckMeaning(k: K)
    requires Inv(k) && Total(k.voting.vals.powers) > 0
    ensures CheckVotingShift(k).Ok?
    ensures
      var k' := CheckVotingShift(k).value;
      && (Commits(k.voting) ==> CommittedTo(k, k', Ahead(k.voting)))
      && (GivesUp(k.voting) ==> LeftFor(k, k'))
      && (!Commits(k.voting) && !GivesUp(k.voting) ==> k' == k)
  {
    SummaryAhead(k.voting);
    FoundIff(k.voting.headers, Ahead(k.voting));
    if Commits(k.voting) {
      CommitShifts(k, Ahead(k.voting), FindHeader(k.voting.headers, Ahead(k.voting)).value);
    } else if GivesUp(k.voting) {
      AdvanceLeaves(k);
    }
  }

  lemma CommitShifts(k: K, hash: Hash, header: Header)
    requires Aligned(k) && header.hash == hash && exists i :: IsFirst(k.voting.headers, hash, i) && k.voting.headers[i].header == header
    ensures CommittedTo(k, ShiftToCommitting(k.(log := k.log + [CommitRecord(k.voting, hash)]), header), hash)
  {
    ShiftCommits(k.(log := k.log + [CommitRecord(k.voting, hash)]), header);
  }

  lemma ShiftCommits(k: K, header: Header)
    requires Aligned(k)
    ensures
      var k' := ShiftToCommitting(k, header);
      && k'.voting.h == k.voting.h + 1 && k'.voting.r == 0 && k'.voting.vals == header.nextVals
      && SameVotes(k'.committing, k.voting) && k'.committingHeader == Some(header) && k'.log == k.log
      && FreshNext(k'.voting) && FreshNext(k'.nextRound) && k'.nilVoted == k.nilVoted
  {
  }

  lemma AdvanceLeaves(k: K)
    requires Aligned(k)
    ensures LeftFor(k, AdvanceRound(k))
  {
  }

  lemma SameAhead(v: View, w: View)
    requires SameVotes(v, w) && Total(v.vals.powers) > 0
    ensures Ahead(v) == Ahead(w) && (Commits(v) <==> Commits(w)) && (GivesUp(v) <==> GivesUp(w))
  {
    SameMeaning(v, w, Precommit);
  }

  lemma AcceptedVoting(k: K, updates: map<Hash, VoteUpdate>)
    requires Inv(k) && AllApply(k.voting.precommits, updates) && StoreVotes(k, VotingView, Precommit, updates).Ok?
    ensures
      var o := CheckVotingShift(StoreVotes(k, VotingView, Precommit, updates).value);
      AddVotes(k, Precommit, k.voting.h, k.voting.r, updates) == if o.Ok? then Ok((o.value, Accepted)) else Stuck
  {
    assert FindView(k, k.voting.h, k.voting.r) == Found(VotingView);
  }

  /** Precommits for the voting round commit its block exactly when the target ahead has a majority and its
    header is known, and leave the round exactly when nil has a majority or all power is in without one. */
  lemma VotingPrecommitsMove(k: K, updates: map<Hash, VoteUpdate>)
    requires Inv(k) && Total(k.voting.vals.powers) > 0 && AllApply(k.voting.precommits, updates)
    ensures StoreVotes(k, VotingView, Precommit, updates).Ok? && AddVotes(k, Precommit, k.voting.h, k.voting.r, updates).Ok?
    ensures
      var w := With(k.voting, Precommit, updates);
      var k1 := StoreVotes(k, VotingView, Precommit, updates).value;
      var (k', res) := AddVotes(k, Precommit, k.voting.h, k.voting.r, updates).value;
      && res == Accepted && SameVotes(k1.voting, w) && k1.nextRound == k.nextRound && k1.committing == k.committing
      && (Commits(w) ==> CommittedTo(k1, k', Ahead(w)))
      && (GivesUp(w) ==> LeftFor(k1, k'))
      && (!Commits(w) && !GivesUp(w) ==> k' == k1)
  {
    StoredInVoting(k, Precommit, updates);
    AcceptedVoting(k, updates);
    var k1 := StoreVotes(k, VotingView, Precommit, updates).value;
    SameAhead(k1.voting, With(k.voting, Precommit, updates));
    VotingCheckMeaning(k1);
  }

  // ----- Nothing is left waiting -----

  /** No threshold that moves the views has been reached without moving them. */
  ghost predicate NothingWaits(k: K) {
    Total(k.voting.vals.powers) > 0 ==> VotingSettled(k.voting) && NextSettled(k.nextRound)
  }

  ghost predicate VotingSettled(v: View)
    requires Total(v.vals.powers) > 0
  {
    !Commits(v) && !GivesUp(v)
  }

  ghost predicate NextSettled(v: View) {
    !ThirdVoted(v, Prevote) && !ThirdVoted(v, Precommit)
  }

  lemma {:induction false} NobodyVoted(v: View, kind: Kind)
    requires BallotOf(v, kind) == EMPTY_BALLOT
    ensures VotedPower(v, kind) == 0
  {
    assert BlockPowers(v.vals.powers, map[]) == map[];
  }

  /** With less than a third of the power nothing can be decided. */
  lemma FewSettled(v: View, w: View)
    requires Total(v.vals.powers) > 0 && !ThirdVoted(v, Precommit) && SameVotes(v, w)
    ensures VotingSettled(w)
  {
    var t := TallyOf(v.vals.powers, v.precommits.proofs);
    SameAhead(v, w);
    SameMeaning(v, w, Precommit);
    PowerOfNobody(v.vals.powers);
    if AheadWins(v) {
      assert Ahead(v) in t.power;
      SumRemove(t.power, Ahead(v));
    }
  }

  lemma FreshSettled(v: View)
    requires Total(v.vals.powers) > 0 && v.prevotes == EMPTY_BALLOT && v.precommits == EMPTY_BALLOT
    ensures VotingSettled(v) && NextSettled(v)
  {
    NobodyVoted(v, Prevote);
    NobodyVoted(v, Precommit);
    FewSettled(v, v);
  }

  lemma IncrementFresh(k: K)
    requires Aligned(k)
    ensures
      var k' := IncrementRound(k);
      FreshNext(k'.nextRound) && k'.nextRound.vals == k.voting.vals && SameVotes(k'.voting, k.nextRound)
    ensures JumpRound(k).voting == IncrementRound(k).voting && JumpRound(k).nextRound == IncrementRound(k).nextRound
  {
  }

  lemma ShiftFresh(k: K, header: Header)
    ensures
      var k' := ShiftToCommitting(k, header);
      FreshNext(k'.nextRound) && FreshNext(k'.voting) && k'.nextRound.vals == k'.voting.vals
  {
  }

  lemma AdvanceSettles(k: K)
    requires Aligned(k) && (Total(k.voting.vals.powers) > 0 ==> NextSettled(k.nextRound))
    ensures NothingWaits(AdvanceRound(k))
  {
    var k1 := k.(nilVoted := Some(k.voting));
    IncrementFresh(k1);
    var k' := AdvanceRound(k);
    if Total(k.voting.vals.powers) > 0 {
      FewSettled(k.nextRound, k'.voting);
      FreshSettled(k'.nextRound);
    }
  }

  lemma ShiftSettles(k: K, header: Header)
    ensures NothingWaits(ShiftToCommitting(k, header))
  {
    ShiftFresh(k, header);
    var k' := ShiftToCommitting(k, header);
    if Total(k'.voting.vals.powers) > 0 {
      FreshSettled(k'.voting);
      FreshSettled(k'.nextRound);
    }
  }

  /** After looking at the voting round's precommits, nothing waits. */
  lemma VotingCheckSettles(k: K)
    requires Inv(k) && CheckVotingShift(k).Ok? && (Total(k.voting.vals.powers) > 0 ==> NextSettled(k.nextRound))
    ensures NothingWaits(CheckVotingShift(k).value)
  {
    if Total(k.voting.vals.powers) > 0 {
      VotingCheckMeaning(k);
      if GivesUp(k.voting) {
        AdvanceSettles(k);
        SummaryAhead(k.voting);
      } else if Commits(k.voting) {
        SummaryAhead(k.voting);
        FoundIff(k.voting.headers, Ahead(k.voting));
        var header := FindHeader(k.voting.headers, Ahead(k.voting)).value;
        ShiftSettles(k.(log := k.log + [CommitRecord(k.voting, Ahead(k.voting))]), header);
      }
    }
  }

  /** Some of the updates apply and others do not: the votes are stored, but no threshold is looked at. */
  predicate Partial(k: K, kind: Kind, h: nat, r: nat, updates: map<Hash, VoteUpdate>) {
    FindView(k, h, r).Found?
    && var b := BallotOf(GetView(k, FindView(k, h, r).id), kind);
    AnyApplies(b, updates) && !AllApply(b, updates)
  }

  /** Precommits for the next round bring all power in at once: voting moves there and stays. */
  ghost predicate FullJump(k: K, kind: Kind, h: nat, r: nat, updates: map<Hash, VoteUpdate>) {
    && FindView(k, h, r) == Found(NextRoundView) && kind.Precommit? && AllApply(k.nextRound.precommits, updates)
    && Total(k.nextRound.vals.powers) > 0
    && VotedPower(With(k.nextRound, Precommit, updates), Precommit) == Total(k.nextRound.vals.powers)
  }

  lemma SameNext(v: View, w: View)
    requires SameVotes(v, w) && Total(v.vals.powers) > 0
    ensures NextSettled(v) <==> NextSettled(w)
  {
    SameMeaning(v, w, Prevote);
    SameMeaning(v, w, Precommit);
  }

  lemma OtherKind(v: View, kind: Kind, updates: map<Hash, VoteUpdate>)
    ensures
      var other := if kind.Prevote? then Precommit else Prevote;
      VotedPower(With(v, kind, updates), other) == VotedPower(v, other)
    ensures kind.Prevote? && Total(v.vals.powers) > 0 ==>
      (Commits(With(v, kind, updates)) <==> Commits(v)) && (GivesUp(With(v, kind, updates)) <==> GivesUp(v))
  {
    var w := With(v, kind, updates);
    if kind.Prevote? && Total(v.vals.powers) > 0 {
      assert forall hash :: HasMajority(w, Precommit, hash) <==> HasMajority(v, Precommit, hash);
    }
  }

  /** A vote addition for the voting round. */
  lemma VotingAdditionSettles(k: K, kind: Kind, updates: map<Hash, VoteUpdate>)
    requires Inv(k) && NothingWaits(k) && AllApply(BallotOf(k.voting, kind), updates)
    requires AddVotes(k, kind, k.voting.h, k.voting.r, updates).Ok?
    ensures NothingWaits(AddVotes(k, kind, k.voting.h, k.voting.r, updates).value.0)
  {
    StoredInVoting(k, kind, updates);
    var k1 := StoreVotes(k, VotingView, kind, updates).value;
    if kind.Precommit? {
      AcceptedVoting(k, updates);
      VotingCheckSettles(k1);
    } else {
      AcceptedPrevotes(k, updates);
      if Total(k.voting.vals.powers) > 0 {
        OtherKind(k.voting, Prevote, updates);
        SameAhead(k1.voting, With(k.voting, Prevote, updates));
      }
    }
  }

  lemma AcceptedPrevotes(k: K, updates: map<Hash, VoteUpdate>)
    requires Inv(k) && AllApply(k.voting.prevotes, updates) && StoreVotes(k, VotingView, Prevote, updates).Ok?
    ensures AddVotes(k, Prevote, k.voting.h, k.voting.r, updates) == Ok((StoreVotes(k, VotingView, Prevote, updates).value, Accepted))
  {
    assert FindView(k, k.voting.h, k.voting.r) == Found(VotingView);
  }

  /** After a jump: the round that is voted on now was the next one. */
  lemma JumpSettles(k: K)
    requires Aligned(k) && Total(k.nextRound.vals.powers) > 0 && k.voting.vals == k.nextRound.vals
    ensures NothingWaits(JumpRound(k)) <==> VotingSettled(k.nextRound)
  {
    IncrementFresh(k);
    var k' := JumpRound(k);
    SameAhead(k'.voting, k.nextRound);
    FreshSettled(k'.nextRound);
  }

  lemma NextWithoutMajority(v: View)
    requires SummaryFresh(v) && v.summary.available > 0 && !SomeMajority(v, Precommit)
    ensures VotingSettled(v) <==> VotedPower(v, Precommit) != Total(v.vals.powers)
  {
    SummaryAhead(v);
  }

  lemma SmallSummary(v: View)
    requires SummaryFresh(v) && v.summary.available > 0 && !ThirdVoted(v, Precommit)
    ensures !SomeMajority(v, Precommit) && VotedPower(v, Precommit) != Total(v.vals.powers)
  {
    MostVotedDecides(v, Precommit);
  }

  /** A vote addition for the next round settles everything, unless it is a full jump, which does not. */
  lemma NextAdditionSettles(k: K, kind: Kind, updates: map<Hash, VoteUpdate>)
    requires Inv(k) && NothingWaits(k) && AllApply(BallotOf(k.nextRound, kind), updates) && Total(k.nextRound.vals.powers) > 0
    requires AddVotes(k, kind, k.nextRound.h, k.nextRound.r, updates).Ok?
    ensures
      NothingWaits(AddVotes(k, kind, k.nextRound.h, k.nextRound.r, updates).value.0)
      <==> !FullJump(k, kind, k.nextRound.h, k.nextRound.r, updates)
  {
    StoredInNext(k, kind, updates);
    AcceptedNext(k, kind, updates);
    var k1 := StoreVotes(k, NextRoundView, kind, updates).value;
    var w := With(k.nextRound, kind, updates);
    NextCheckMeaning(k1, kind);
    SameMeaning(k1.nextRound, w, Precommit);
    SameMeaning(k1.nextRound, w, Prevote);
    OtherKind(k.nextRound, kind, updates);
    assert FindView(k, k.nextRound.h, k.nextRound.r) == Found(NextRoundView);
    if ThirdVoted(k1.nextRound, kind) {
      JumpSettles(k1);
      if kind.Prevote? { SmallSummary(k1.nextRound); }
      NextWithoutMajority(k1.nextRound);
    }
  }

  lemma NoPowerStuck(k: K, kind: Kind, updates: map<Hash, VoteUpdate>)
    requires Inv(k) && Total(k.nextRound.vals.powers) == 0 && AllApply(BallotOf(k.nextRound, kind), updates)
    ensures AddVotes(k, kind, k.nextRound.h, k.nextRound.r, updates).Stuck?
  {
    StoredInNext(k, kind, updates);
    AcceptedNext(k, kind, updates);
  }

  lemma PartialStores(k: K, kind: Kind, h: nat, r: nat, updates: map<Hash, VoteUpdate>)
    requires FindView(k, h, r).Found? && !AllApply(BallotOf(GetView(k, FindView(k, h, r).id), kind), updates)
    requires AddVotes(k, kind, h, r, updates).Ok?
    ensures AddVotes(k, kind, h, r, updates) == Ok((StoreVotes(k, FindView(k, h, r).id, kind, updates).value, Conflict))
  {
  }

  lemma CommittingVotesMoveNothing(k: K, kind: Kind, h: nat, r: nat, updates: map<Hash, VoteUpdate>)
    requires FindView(k, h, r) == Found(CommittingView) && AddVotes(k, kind, h, r, updates).Ok?
    ensures
      var k' := AddVotes(k, kind, h, r, updates).value.0;
      k'.voting == k.voting && k'.nextRound == k.nextRound
  {
  }

  /** A vote addition leaves nothing waiting, unless it is a full jump, which does, or applies in part only. */
  lemma AdditionSettles(k: K, kind: Kind, h: nat, r: nat, updates: map<Hash, VoteUpdate>)
    requires Inv(k) && NothingWaits(k) && AddVotes(k, kind, h, r, updates).Ok? && !Partial(k, kind, h, r, updates)
    ensures NothingWaits(AddVotes(k, kind, h, r, updates).value.0) <==> !FullJump(k, kind, h, r, updates)
  {
    var f := FindView(k, h, r);
    if f.Found? {
      FoundViewMatches(k, h, r);
      var b := BallotOf(GetView(k, f.id), kind);
      if f.id.CommittingView? {
        CommittingVotesMoveNothing(k, kind, h, r, updates);
      } else if !AllApply(b, updates) {
        PartialStores(k, kind, h, r, updates);
      } else if f.id.VotingView? {
        VotingAdditionSettles(k, kind, updates);
      } else if Total(k.nextRound.vals.powers) > 0 {
        NextAdditionSettles(k, kind, updates);
      } else {
        NoPowerStuck(k, kind, updates);
      }
    }
  }

  /** One that applies in part leaves something waiting exactly when the votes that were stored reach a
    threshold. */
  lemma PartialSettlesIff(k: K, kind: Kind, h: nat, r: nat, updates: map<Hash, VoteUpdate>)
    requires Inv(k) && NothingWaits(k) && Partial(k, kind, h, r, updates) && Total(k.voting.vals.powers) > 0
    requires AddVotes(k, kind, h, r, updates).Ok?
    ensures
      NothingWaits(AddVotes(k, kind, h, r, updates).value.0) <==>
        match FindView(k, h, r).id
        case CommittingView => true
        case VotingView => kind.Prevote? || VotingSettled(With(k.voting, Precommit, updates))
        case NextRoundView => !ThirdVoted(With(k.nextRound, kind, updates), kind)
  {
    var id := FindView(k, h, r).id;
    PartialStores(k, kind, h, r, updates);
    match id {
      case CommittingView => CommittingVotesMoveNothing(k, kind, h, r, updates);
      case VotingView =>
        StoredInVoting(k, kind, updates);
        OtherKind(k.voting, kind, updates);
        SameAhead(StoreVotes(k, VotingView, kind, updates).value.voting, With(k.voting, kind, updates));
      case NextRoundView =>
        StoredInNext(k, kind, updates);
        OtherKind(k.nextRound, kind, updates);
        SameNext(StoreVotes(k, NextRoundView, kind, updates).value.nextRound, With(k.nextRound, kind, updates));
    }
  }

  // ----- Headers and the rest -----

  predicate HeaderAdded(v: View, w: View, ph: ProposedHeader) {
    w == v.(headers := v.headers + [ph], version := w.version)
  }

  lemma HeaderSame(v: View, w: View, ph: ProposedHeader)
    requires HeaderAdded(v, w, ph) && Total(v.vals.powers) > 0
    ensures Ahead(w) == Ahead(v) && (AheadWins(w) <==> AheadWins(v)) && (GivesUp(w) <==> GivesUp(v))
    ensures (NextSettled(w) <==> NextSettled(v))
    ensures VotingSettled(v) && ph.header.hash !in v.precommits.proofs ==> VotingSettled(w)
  {
    assert forall hash :: HasMajority(w, Precommit, hash) <==> HasMajority(v, Precommit, hash);
    PowerOfNobody(v.vals.powers);
    forall hash | HasHeader(w, hash) && hash != ph.header.hash ensures HasHeader(v, hash) {
      var i :| 0 <= i < |w.headers| && w.headers[i].header.hash == hash;
      assert v.headers[i] == w.headers[i];
    }
    assert ph.header.hash !in v.precommits.proofs ==> Signers(v.precommits, ph.header.hash) == {};
  }

  lemma HeaderTouched(k: K, id: ViewId, ph: ProposedHeader)
    requires Inv(k) && GetView(k, id).version > 0
    ensures
      var v := GetView(k, id);
      var k1 := Touch(k, id, v.(headers := v.headers + [ph]));
      && HeaderAdded(v, GetView(k1, id), ph) && Inv(k1)
      && (id.VotingView? ==> k1.nextRound == k.nextRound && k1.committing == k.committing)
      && (id.NextRoundView? ==> k1.voting == k.voting && k1.committing == k.committing)
      && (id.CommittingView? ==> k1.voting == k.voting && k1.nextRound == k.nextRound)
  {
    var v := GetView(k, id);
    TouchKeeps(k, id, v.(headers := v.headers + [ph]));
  }

  lemma HeaderSettles(signed: set<Vote>, k: K, ph: ProposedHeader)
    requires Inv(k) && NothingWaits(k) && ph.header.height > 0 && AddHeader(signed, k, ph).Ok?
    ensures NothingWaits(AddHeader(signed, k, ph).value)
  {
    var f := FindView(k, ph.header.height, ph.round);
    if f.Found? && !HasSignature(GetView(k, f.id).headers, ph.sig) {
      var v := GetView(k, f.id);
      HeaderTouched(k, f.id, ph);
      var k1 := Touch(k, f.id, v.(headers := v.headers + [ph]));
      if !f.id.CommittingView? {
        BackfillKeeps(signed, k1, ph.header.prevCommit);
        var k2 := BackfillCommitting(signed, k1, ph.header.prevCommit).value;
        if Total(k.voting.vals.powers) > 0 { HeaderSame(v, GetView(k2, f.id), ph); }
        if f.id.VotingView? && ph.header.hash in k2.voting.precommits.proofs {
          VotingCheckSettles(k2);
        }
      }
    }
  }

  lemma LocalVoteSettles(signed: set<Vote>, k: K, kind: Kind, hash: Hash, i: nat)
    requires Inv(k) && NothingWaits(k) && LocalVote(signed, k, kind, hash, i).Ok?
    ensures NothingWaits(LocalVote(signed, k, kind, hash, i).value)
  {
    var f := FindView(k, k.sm.h, k.sm.r);
    if f.Found? && !f.id.NextRoundView? {
      var b := BallotOf(GetView(k, f.id), kind);
      var base := if hash in b.proofs then b.proofs[hash] else Proof(k.voting.vals.keys, {});
      var updates := map[hash := VoteUpdate(base.(bits := base.bits + {i}), Ver(b, hash))];
      assert Applies(b, updates, hash);
      if AddVotes(k, kind, k.sm.h, k.sm.r, updates).Ok? {
        AdditionSettles(k, kind, k.sm.h, k.sm.r, updates);
      }
    }
  }

  /** The submission applies in part, or is a full jump. */
  ghost predicate Unsettling(m: Mirror, e: Event) {
    && e.Submit? && e.id in m.pending
    && var p := m.pending[e.id];
    Partial(m.k, p.kind, p.h, p.r, p.updates) || FullJump(m.k, p.kind, p.h, p.r, p.updates)
  }

  lemma SubmitSettles(signed: set<Vote>, m: Mirror, id: nat)
    requires Inv(m.k) && NothingWaits(m.k) && Step(signed, m, Submit(id)).Ok? && !Unsettling(m, Submit(id))
    ensures NothingWaits(Step(signed, m, Submit(id)).value.k)
  {
    if id in m.pending {
      var p := m.pending[id];
      AdditionSettles(m.k, p.kind, p.h, p.r, p.updates);
    }
  }

  lemma SameViewsSettle(k: K, k': K)
    requires NothingWaits(k) && k'.voting == k.voting && k'.nextRound == k.nextRound
    ensures NothingWaits(k')
  {
  }

  lemma QuietStep(signed: set<Vote>, m: Mirror, e: Event)
    requires !e.Submit? && !e.NewHeader? && !e.SMVote? && Step(signed, m, e).Ok?
    ensures var k' := Step(signed, m, e).value.k; k'.voting == m.k.voting && k'.nextRound == m.k.nextRound
  {
  }

  lemma StepSettles(signed: set<Vote>, m: Mirror, e: Event)
    requires MirrorOk(m) && NothingWaits(m.k) && Step(signed, m, e).Ok? && !Unsettling(m, e)
    ensures NothingWaits(Step(signed, m, e).value.k)
  {
    match e {
      case Submit(id) => SubmitSettles(signed, m, id);
      case NewHeader(ph) =>
        if ph.header.height > 0 { HeaderSettles(signed, m.k, ph); }
      case SMVote(kind, hash, i) => LocalVoteSettles(signed, m.k, kind, hash, i);
      case _ =>
        QuietStep(signed, m, e);
        SameViewsSettle(m.k, Step(signed, m, e).value.k);
    }
  }

  ghost predicate UnsettlingAt(m: Mirror, es: seq<Input>, i: nat)
    requires i < |es|
  {
    Run(m, es[..i]).Ok? && Unsettling(Run(m, es[..i]).value, es[i].event)
  }

  /** In every run whose submissions apply as a whole and none of which brings all power into the next round
    at once, no reached threshold is ever left waiting. */
  lemma {:induction false} NothingEverWaits(initialHeight: nat, vals: ValSet, es: seq<Input>, j: nat)
    requires initialHeight > 0 && j <= |es| && ForwardRun(Start(initialHeight, vals), es)
    requires Run(Start(initialHeight, vals), es[..j]).Ok?
    requires forall i :: 0 <= i < j ==> !UnsettlingAt(Start(initialHeight, vals), es, i)
    ensures NothingWaits(Run(Start(initialHeight, vals), es[..j]).value.k)
  {
    var m := Start(initialHeight, vals);
    if j == 0 {
      if Total(vals.powers) > 0 {
        FreshSettled(m.k.voting);
        FreshSettled(m.k.nextRound);
      }
    } else {
      RunNext(m, es, j - 1);
      NothingEverWaits(initialHeight, vals, es, j - 1);
      RunKeeps(initialHeight, vals, es, j - 1);
      assert !UnsettlingAt(m, es, j - 1);
      StepSettles(es[j - 1].signed, Run(m, es[..j - 1]).value, es[j - 1].event);
    }
  }
}
