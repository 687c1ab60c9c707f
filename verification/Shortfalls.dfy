/** Where the mirror falls short: a threshold left waiting after a submission that applies in part, a round left
  waiting after votes that bring all power into it at once, a round that cannot be entered, and a late vote
  filed over the wrong validators. */
module Shortfalls {
  import opened Options
  import opened Quorum
  import opened Votes
  import opened Views
  import opened KernelSpec
  import opened KernelInv
  import opened MirrorSystem
  import opened MirrorRuns
  import opened FirstStep
  import opened Thresholds
  import opened Scenarios
  import opened Contents
  import RoundSpec
  import RoundInv
  import Requests
  import Abandonment

  const FOUR := Abandonment.FOUR

  function TwoPrevotes(): set<Vote> {
    {Vote(Prevote, 10, 1, 1, "a"), Vote(Prevote, 11, 1, 1, "b")}
  }

  function Fewer(): map<Hash, set<nat>> {
    map["a" := {0}]
  }

  function Both(): map<Hash, set<nat>> {
    map["a" := {0}, "b" := {1}]
  }

  function LookupOf(id: nat, claims: map<Hash, set<nat>>): Input {
    Input(TwoPrevotes(), Lookup(id, Prevote, 1, 1, FOUR.keys, claims))
  }

  /** Two handlers look the next round up, the second with one vote more. Both submit. */
  function Overlapping(): seq<Input> {
    [LookupOf(1, Fewer())] + [LookupOf(2, Both())] + [Input({}, Submit(1))] + [Input({}, Submit(2))]
  }

  function UpdateOf(claims: map<Hash, set<nat>>): map<Hash, VoteUpdate> {
    map hash | hash in claims :: VoteUpdate(Proof(FOUR.keys, claims[hash]), 0)
  }

  lemma Prepared(claims: map<Hash, set<nat>>)
    requires claims == Fewer() || claims == Both()
    ensures
      var v := InitialK(1, FOUR).nextRound;
      SigsToAdd(v, Prevote, claims) == claims && PrepareUpdates(TwoPrevotes(), v, Prevote, claims) == UpdateOf(claims)
  {
    var v := InitialK(1, FOUR).nextRound;
    forall hash | hash in claims
      ensures Missing(v, Prevote, hash, claims[hash]) == claims[hash] != {}
      ensures Verified(TwoPrevotes(), Proof(FOUR.keys, {}), Prevote, 1, 1, hash, claims[hash]) == claims[hash]
    {
      assert 0 in claims[hash] || 1 in claims[hash];
    }
    assert SigsToAdd(v, Prevote, claims) == claims;
    forall hash | hash in claims
      ensures MergeSparse(TwoPrevotes(), BaseProof(v, Prevote, hash), Prevote, v.h, v.r, hash, claims[hash]) == Proof(FOUR.keys, claims[hash])
    {
      assert {} + claims[hash] == claims[hash];
    }
  }

  ghost function PendingOf(claims: map<Hash, set<nat>>): Pending {
    Pending(Prevote, 1, 1, UpdateOf(claims), MergedSigners(TwoPrevotes(), InitialK(1, FOUR).nextRound, Prevote, claims))
  }

  lemma LooksUp(id: nat, claims: map<Hash, set<nat>>, pending: map<nat, Pending>)
    requires claims == Fewer() || claims == Both()
    ensures
      var k := InitialK(1, FOUR);
      Step(TwoPrevotes(), Mirror(k, pending), LookupOf(id, claims).event) == Ok(Mirror(k, pending[id := PendingOf(claims)]))
  {
    Prepared(claims);
    assert "a" in claims;
    assert FindView(InitialK(1, FOUR), 1, 1) == Found(NextRoundView);
  }

  lemma LooksUpBoth()
    ensures Leads(FOUR, [LookupOf(1, Fewer())] + [LookupOf(2, Both())], InitialK(1, FOUR), map[1 := PendingOf(Fewer()), 2 := PendingOf(Both())])
  {
    var k := InitialK(1, FOUR);
    var none: map<nat, Pending> := map[];
    Begin(FOUR);
    LooksUp(1, Fewer(), none);
    LooksUp(2, Both(), map[1 := PendingOf(Fewer())]);
    assert [] + [LookupOf(1, Fewer())] == [LookupOf(1, Fewer())];
    Continue(FOUR, [], k, none, LookupOf(1, Fewer()), k, none[1 := PendingOf(Fewer())]);
    Continue(FOUR, [LookupOf(1, Fewer())], k, map[1 := PendingOf(Fewer())], LookupOf(2, Both()), k,
             map[1 := PendingOf(Fewer())][2 := PendingOf(Both())]);
  }

  lemma OneVote(v: View)
    requires v.vals == FOUR && v.prevotes.proofs == map["a" := Proof(FOUR.keys, {0})]
    ensures VotedPower(v, Prevote) == 1 && Total(v.vals.powers) == 4
  {
    Abandonment.FourOnes({0});
    var m: map<Hash, nat> := map[];
    assert BlockPowers(FOUR.powers, v.prevotes.proofs) == m["a" := 1];
    SumInsert(m, "a", 1);
  }

  lemma TwoVotes(v: View)
    requires v.vals == FOUR && v.prevotes.proofs == map["a" := Proof(FOUR.keys, {0}), "b" := Proof(FOUR.keys, {1})]
    ensures VotedPower(v, Prevote) == 2 && Total(v.vals.powers) == 4
  {
    Abandonment.FourOnes({0});
    Abandonment.FourOnes({1});
    var m: map<Hash, nat> := map[];
    assert BlockPowers(FOUR.powers, v.prevotes.proofs) == m["a" := 1]["b" := 1];
    SumInsert(m, "a", 1);
    SumInsert(m["a" := 1], "b", 1);
  }

  /** The first submission: accepted, and below the threshold. */
  ghost predicate AfterFirst(k: K) {
    && Inv(k) && NothingWaits(k) && Matches(k.voting, 1, 0) && Matches(k.nextRound, 1, 1) && k.nextRound.vals == FOUR && k.voting.vals == FOUR
    && k.nextRound.prevotes == Ballot(map["a" := Proof(FOUR.keys, {0})], map["a" := 1])
  }

  lemma FirstSubmission()
    ensures
      var o := AddVotes(InitialK(1, FOUR), Prevote, 1, 1, UpdateOf(Fewer()));
      o.Ok? && o.value.1 == Accepted && AfterFirst(o.value.0)
  {
    var k, u := InitialK(1, FOUR), UpdateOf(Fewer());
    InitiallyHolds(1, FOUR);
    var w := With(k.nextRound, Prevote, u);
    assert Applies(EMPTY_BALLOT, u, "a");
    assert w.prevotes == Ballot(map["a" := Proof(FOUR.keys, {0})], map["a" := 1]);
    OneVote(w);
    FreshSettled(k.voting);
    FreshSettled(k.nextRound);
    NextRoundVotesMove(k, Prevote, u);
    AdditionSettles(k, Prevote, 1, 1, u);
    AddVotesKeeps(k, Prevote, 1, 1, u);
  }

  lemma SecondApplies(b: Ballot)
    requires b == Ballot(map["a" := Proof(FOUR.keys, {0})], map["a" := 1])
    ensures AnyApplies(b, UpdateOf(Both())) && !AllApply(b, UpdateOf(Both()))
    ensures ApplyUpdates(b, UpdateOf(Both())).proofs == map["a" := Proof(FOUR.keys, {0}), "b" := Proof(FOUR.keys, {1})]
  {
    var u := UpdateOf(Both());
    assert !Applies(b, u, "a") && Applies(b, u, "b");
  }

  lemma SecondSubmission(k: K)
    requires AfterFirst(k)
    ensures
      var o := AddVotes(k, Prevote, 1, 1, UpdateOf(Both()));
      && o.Ok? && o.value.1 == Conflict && !NothingWaits(o.value.0) && Matches(o.value.0.voting, 1, 0)
      && SameVotes(o.value.0.nextRound, With(k.nextRound, Prevote, UpdateOf(Both())))
  {
    var u := UpdateOf(Both());
    SecondApplies(k.nextRound.prevotes);
    TwoVotes(With(k.nextRound, Prevote, u));
    StoredInNext(k, Prevote, u);
    assert FindView(k, 1, 1) == Found(NextRoundView);
    PartialAnswer(k, u);
    PartialSettlesIff(k, Prevote, 1, 1, u);
  }

  lemma PartialAnswer(k: K, u: map<Hash, VoteUpdate>)
    requires FindView(k, 1, 1) == Found(NextRoundView) && !AllApply(k.nextRound.prevotes, u)
    requires StoreVotes(k, NextRoundView, Prevote, u).Ok?
    ensures AddVotes(k, Prevote, 1, 1, u) == Ok((StoreVotes(k, NextRoundView, Prevote, u).value, Conflict))
  {
  }

  /** One submission. */
  lemma Submits(es: seq<Input>, k: K, pending: map<nat, Pending>, id: nat, p: Pending, k1: K, res: AddResult)
    requires Leads(FOUR, es, k, pending) && id in pending && pending[id] == p
    requires AddVotes(k, p.kind, p.h, p.r, p.updates) == Ok((k1, res))
    ensures Leads(FOUR, es + [Input({}, Submit(id))], k1, pending - {id})
  {
    Continue(FOUR, es, k, pending, Input({}, Submit(id)), k1, pending - {id});
  }

  lemma SubmitsTwo(es: seq<Input>, k0: K, p1: Pending, p2: Pending, k1: K, k2: K, r1: AddResult, r2: AddResult)
    requires Leads(FOUR, es, k0, map[1 := p1, 2 := p2])
    requires AddVotes(k0, p1.kind, p1.h, p1.r, p1.updates) == Ok((k1, r1))
    requires AddVotes(k1, p2.kind, p2.h, p2.r, p2.updates) == Ok((k2, r2))
    ensures Leads(FOUR, es + [Input({}, Submit(1))] + [Input({}, Submit(2))], k2, map[])
  {
    Submits(es, k0, map[1 := p1, 2 := p2], 1, p1, k1, r1);
    assert map[1 := p1, 2 := p2] - {1} == map[2 := p2];
    Submits(es + [Input({}, Submit(1))], k1, map[2 := p2], 2, p2, k2, r2);
    assert map[2 := p2] - {2} == map[];
  }

  lemma Submitted(k1: K, k2: K, r1: AddResult, r2: AddResult)
    requires AddVotes(InitialK(1, FOUR), Prevote, 1, 1, UpdateOf(Fewer())) == Ok((k1, r1))
    requires AddVotes(k1, Prevote, 1, 1, UpdateOf(Both())) == Ok((k2, r2))
    ensures Leads(FOUR, Overlapping(), k2, map[])
  {
    LooksUpBoth();
    SubmitsTwo([LookupOf(1, Fewer())] + [LookupOf(2, Both())], InitialK(1, FOUR), PendingOf(Fewer()), PendingOf(Both()), k1, k2, r1, r2);
  }

  lemma NothingMissing(v: View)
    requires v.prevotes.proofs == map["a" := Proof(FOUR.keys, {0}), "b" := Proof(FOUR.keys, {1})]
    ensures SigsToAdd(v, Prevote, Both()) == map[]
  {
    forall hash | hash in Both() ensures Missing(v, Prevote, hash, Both()[hash]) == {} {
    }
  }

  lemma SecondReaches(k: K, v: View)
    requires AfterFirst(k) && SameVotes(v, With(k.nextRound, Prevote, UpdateOf(Both())))
    ensures ThirdVoted(v, Prevote) && SigsToAdd(v, Prevote, Both()) == map[]
  {
    SecondApplies(k.nextRound.prevotes);
    TwoVotes(v);
    NothingMissing(v);
  }

  /** The second submission is told of a conflict. Then a third of the power has prevoted in the next round,
    but voting stays; and a handler that looks up again with the same votes finds nothing to submit. */
  lemma ThirdIsLeftWaiting()
    ensures ForwardRun(Start(1, FOUR), Overlapping()) && Run(Start(1, FOUR), Overlapping()).Ok?
    ensures
      var m := Run(Start(1, FOUR), Overlapping()).value;
      && Matches(m.k.voting, 1, 0) && ThirdVoted(m.k.nextRound, Prevote) && !NothingWaits(m.k) && m.pending == map[]
      && SigsToAdd(m.k.nextRound, Prevote, Both()) == map[]
  {
    FirstSubmission();
    var k0 := InitialK(1, FOUR);
    var o1 := AddVotes(k0, Prevote, 1, 1, UpdateOf(Fewer())).value;
    SecondSubmission(o1.0);
    var o2 := AddVotes(o1.0, Prevote, 1, 1, UpdateOf(Both())).value;
    Submitted(o1.0, o2.0, o1.1, o2.1);
    SecondReaches(o1.0, o2.0.nextRound);
  }

  // ----- All power at once -----

  /** Everybody's precommits for the next round, for two blocks. */
  function SplitVotes(): map<Hash, VoteUpdate> {
    map["a" := VoteUpdate(Proof(FOUR.keys, {0, 1}), 0), "b" := VoteUpdate(Proof(FOUR.keys, {2, 3}), 0)]
  }

  lemma SplitApplies()
    ensures AllApply(EMPTY_BALLOT, SplitVotes())
    ensures ApplyUpdates(EMPTY_BALLOT, SplitVotes()).proofs == map["a" := Proof(FOUR.keys, {0, 1}), "b" := Proof(FOUR.keys, {2, 3})]
  {
  }

  lemma SplitPower(v: View)
    requires v.vals == FOUR && v.precommits.proofs == map["a" := Proof(FOUR.keys, {0, 1}), "b" := Proof(FOUR.keys, {2, 3})]
    ensures Total(v.vals.powers) == 4 && VotedPower(v, Precommit) == 4 && !SomeMajority(v, Precommit)
  {
    Abandonment.FourOnes({0, 1});
    Abandonment.FourOnes({2, 3});
    Abandonment.FourOnes({});
    var m: map<Hash, nat> := map[];
    assert BlockPowers(FOUR.powers, v.precommits.proofs) == m["a" := 2]["b" := 2];
    SumInsert(m, "a", 2);
    SumInsert(m["a" := 2], "b", 2);
    forall hash ensures !HasMajority(v, Precommit, hash) {
    }
  }

  /** Voting jumps to the next round and stays there, though all its power is in without a majority. */
  lemma FullRoundIsLeftWaiting()
    ensures
      var o := AddVotes(InitialK(1, FOUR), Precommit, 1, 1, SplitVotes());
      o.Ok? && o.value.1 == Accepted && Matches(o.value.0.voting, 1, 1) && GivesUp(o.value.0.voting)
  {
    var k := InitialK(1, FOUR);
    InitiallyHolds(1, FOUR);
    SplitApplies();
    var w := With(k.nextRound, Precommit, SplitVotes());
    SplitPower(w);
    NextRoundVotesMove(k, Precommit, SplitVotes());
    SameAhead(AddVotes(k, Precommit, 1, 1, SplitVotes()).value.0.voting, w);
  }

  // ----- A round that cannot be entered -----

  /** Three of four validators' precommits for the voting round, for two blocks. */
  function ThreeSplit(): map<Hash, VoteUpdate> {
    map["a" := VoteUpdate(Proof(FOUR.keys, {0, 1}), 0), "b" := VoteUpdate(Proof(FOUR.keys, {2}), 0)]
  }

  lemma ThreeApply()
    ensures AllApply(EMPTY_BALLOT, ThreeSplit())
    ensures ApplyUpdates(EMPTY_BALLOT, ThreeSplit()).proofs == map["a" := Proof(FOUR.keys, {0, 1}), "b" := Proof(FOUR.keys, {2})]
  {
  }

  lemma ThreePower(v: View)
    requires v.vals == FOUR && v.precommits.proofs == map["a" := Proof(FOUR.keys, {0, 1}), "b" := Proof(FOUR.keys, {2})]
    ensures Total(v.vals.powers) == 4 && VotedPower(v, Precommit) == 3 && !SomeMajority(v, Precommit) && ByzantineMajority(4) == 3
  {
    Abandonment.FourOnes({0, 1});
    Abandonment.FourOnes({2});
    Abandonment.FourOnes({});
    var m: map<Hash, nat> := map[];
    assert BlockPowers(FOUR.powers, v.precommits.proofs) == m["a" := 2]["b" := 1];
    SumInsert(m, "a", 2);
    SumInsert(m["a" := 2], "b", 1);
    forall hash ensures !HasMajority(v, Precommit, hash) {
    }
  }

  lemma EntryRefused(v: View, l: RoundSpec.Life, resp: seq<RoundSpec.Response>)
    requires SummaryFresh(v) && Total(v.vals.powers) == 4 && VotedPower(v, Precommit) == 3 && !SomeMajority(v, Precommit)
    requires l == RoundSpec.AtGenesis(None, 1, FOUR, "", "") && v.headers == [] && Matches(v, 1, 0)
    ensures RoundSpec.StartLive(l, v, resp).Panic?
  {
    var l1 := l.(actionsCh := RoundSpec.Participating(l), sent := 0, lastDelivered := v.version, entered := v);
    assert v.(h := l.h, r := l.r, headers := RoundSpec.Fitting(l, v.headers)) == v;
    Requests.EntryAsks(l1, v, resp);
  }

  /** The voting round has the power for a decision, but no target has it: a state machine that enters the
    round now panics. */
  lemma SplitEntryPanics(resp: seq<RoundSpec.Response>)
    ensures AddVotes(InitialK(1, FOUR), Precommit, 1, 0, ThreeSplit()).Ok?
    ensures
      var k := AddVotes(InitialK(1, FOUR), Precommit, 1, 0, ThreeSplit()).value.0;
      && Matches(k.voting, 1, 0)
      && RoundSpec.StartLive(RoundSpec.AtGenesis(None, 1, FOUR, "", ""), k.voting, resp).Panic?
  {
    var k := InitialK(1, FOUR);
    InitiallyHolds(1, FOUR);
    ThreeApply();
    var w := With(k.voting, Precommit, ThreeSplit());
    ThreePower(w);
    SplitStays(k, w);
    var k1 := AddVotes(k, Precommit, 1, 0, ThreeSplit()).value.0;
    AddVotesKeeps(k, Precommit, 1, 0, ThreeSplit());
    SameMeaning(k1.voting, w, Precommit);
    EntryRefused(k1.voting, RoundSpec.AtGenesis(None, 1, FOUR, "", ""), resp);
  }

  lemma SplitStays(k: K, w: View)
    requires Inv(k) && k == InitialK(1, FOUR) && AllApply(k.voting.precommits, ThreeSplit()) && w == With(k.voting, Precommit, ThreeSplit())
    requires Total(w.vals.powers) == 4 && VotedPower(w, Precommit) == 3 && !SomeMajority(w, Precommit)
    ensures AddVotes(k, Precommit, 1, 0, ThreeSplit()).Ok? && SameVotes(AddVotes(k, Precommit, 1, 0, ThreeSplit()).value.0.voting, w)
  {
    VotingPrecommitsMove(k, ThreeSplit());
    assert !AheadWins(w);
  }

  // ----- A late vote -----

  /** The next height is voted on by two validators, the first height's one among them at another index. */
  const TWO := ValSet([9, 7], [1, 1])

  const BLOCK_F := ProposedHeader(Header("f", 1, ONE, TWO, "", map[]), 0, "f")

  function LateVotes(): set<Vote> {
    {Vote(Precommit, 7, 1, 0, "f"), Vote(Prevote, 7, 1, 0, NIL_HASH)}
  }

  /** The state machine enters the first round, whose block is committed; then its late prevote arrives. */
  function LateRun(): seq<Input> {
    ([Input(LateVotes(), SMEnter(1, 0, Some(7)))] + [Input(LateVotes(), NewHeader(BLOCK_F))]
     + [Input(LateVotes(), Lookup(0, Precommit, 1, 0, [7], map["f" := {0}]))] + [Input(LateVotes(), Submit(0))])
    + [Input(LateVotes(), SMVote(Prevote, NIL_HASH, 1))]
  }

  function EnteredSeven(): K {
    Enter(InitialK(1, ONE), 1, 0, Some(7)).value
  }

  lemma EntersSeven()
    ensures Leads(ONE, [Input(LateVotes(), SMEnter(1, 0, Some(7)))], EnteredSeven(), map[])
    ensures Awaits(EnteredSeven(), 1, 0) && EnteredSeven().voting.headers == [] && EnteredSeven().voting.vals == ONE
    ensures EnteredSeven().sm.h == 1 && EnteredSeven().sm.r == 0 && EnteredSeven().sm.key == Some(7)
  {
    OnePower();
    Begin(ONE);
    assert [] + [Input(LateVotes(), SMEnter(1, 0, Some(7)))] == [Input(LateVotes(), SMEnter(1, 0, Some(7)))];
    Continue(ONE, [], InitialK(1, ONE), map[], Input(LateVotes(), SMEnter(1, 0, Some(7))), EnteredSeven(), map[]);
  }

  lemma CommitsF(k: K)
    requires Awaits(k, 1, 0) && k.voting.vals == ONE && k.voting.headers == [] && k.sm.h == 1 && k.sm.r == 0 && k.sm.key == Some(7)
    requires k.voting.prevotes == EMPTY_BALLOT
    ensures
      var k1 := Committed(Proposed(k, BLOCK_F), BLOCK_F.header, {0});
      && Matches(k1.committing, 1, 0) && k1.committing.vals == ONE && k1.committing.version > 0 && k1.committing.prevotes == EMPTY_BALLOT
      && k1.voting.vals == TWO && k1.sm.h == 1 && k1.sm.r == 0 && k1.sm.key == Some(7)
  {
  }

  lemma TwoPower()
    ensures Total(TWO.powers) == 2
  {
    assert [1, 1][..1] == [1];
  }

  lemma RunsF(es: seq<Input>, k: K)
    requires Leads(ONE, es, k, map[]) && Awaits(k, 1, 0) && k.voting.vals == ONE && k.voting.headers == []
    ensures
      Leads(ONE, es + [Input(LateVotes(), NewHeader(BLOCK_F))]
                 + [Input(LateVotes(), Lookup(0, Precommit, 1, 0, [7], map["f" := {0}]))] + [Input(LateVotes(), Submit(0))],
            Committed(Proposed(k, BLOCK_F), BLOCK_F.header, {0}), map[])
  {
    OnePower();
    TwoPower();
    FirstHeader(ONE, es, k, LateVotes(), 1, 0, BLOCK_F);
    FirstCommit(ONE, es + [Input(LateVotes(), NewHeader(BLOCK_F))], Proposed(k, BLOCK_F), LateVotes(), 1, 0, BLOCK_F, {0});
  }

  lemma LeadsToF()
    ensures
      var k := Committed(Proposed(EnteredSeven(), BLOCK_F), BLOCK_F.header, {0});
      && Leads(ONE, LateRun()[..4], k, map[])
      && Matches(k.committing, 1, 0) && k.committing.vals == ONE && k.committing.version > 0 && k.committing.prevotes == EMPTY_BALLOT
      && k.voting.vals == TWO && k.sm.h == 1 && k.sm.r == 0 && k.sm.key == Some(7)
  {
    EntersSeven();
    var es, k := LateRun(), EnteredSeven();
    CommitsF(k);
    RunsF([es[0]], k);
    assert [es[0]] + [es[1]] + [es[2]] + [es[3]] == es[..4];
  }

  lemma FilesLate(es: seq<Input>, k: K)
    requires Leads(ONE, es, k, map[])
    requires Matches(k.committing, 1, 0) && k.committing.vals == ONE && k.committing.version > 0 && k.committing.prevotes == EMPTY_BALLOT
    requires k.voting.vals == TWO && k.sm.h == 1 && k.sm.r == 0 && k.sm.key == Some(7)
    ensures
      var fs := es + [Input(LateVotes(), SMVote(Prevote, NIL_HASH, 1))];
      && ForwardRun(Start(1, ONE), fs) && Run(Start(1, ONE), fs).Ok?
      && var v := Run(Start(1, ONE), fs).value.k.committing;
      && v.vals.keys == [7] && NIL_HASH in v.prevotes.proofs && v.prevotes.proofs[NIL_HASH] == Proof([9, 7], {1})
  {
    assert es[..|es|] == es;
    RunKeeps(1, ONE, es, |es|);
    LateVoteFiled(LateVotes(), k, Prevote, NIL_HASH, 1);
    var k1 := LocalVote(LateVotes(), k, Prevote, NIL_HASH, 1).value;
    FindMeaning(k, 1, 0);
    LateVals(k);
    Continue(ONE, es, k, map[], Input(LateVotes(), SMVote(Prevote, NIL_HASH, 1)), k1, map[]);
  }

  lemma LateVals(k: K)
    requires Inv(k) && k.committing.version > 0 && Matches(k.committing, 1, 0) && k.committing.prevotes == EMPTY_BALLOT
    requires k.sm.h == 1 && k.sm.r == 0 && LocalVote(LateVotes(), k, Prevote, NIL_HASH, 1).Ok?
    ensures LocalVote(LateVotes(), k, Prevote, NIL_HASH, 1).value.committing.vals == k.committing.vals
  {
    FindMeaning(k, 1, 0);
    LocalVoteIs(LateVotes(), k, Prevote, NIL_HASH, 1, CommittingView);
    CommittingVotesStored(k, Prevote, OneMore(k.committing.prevotes, k.voting.vals.keys, NIL_HASH, 1));
  }

  /** The only validator of the first height prevotes nil after its block is committed. The vote is filed under
    the second validator of the next height, where the committing round has one only. */
  lemma LateVoteMisfiled()
    ensures ForwardRun(Start(1, ONE), LateRun()) && Run(Start(1, ONE), LateRun()).Ok?
    ensures
      var v := Run(Start(1, ONE), LateRun()).value.k.committing;
      && v.vals.keys == [7] && NIL_HASH in v.prevotes.proofs && v.prevotes.proofs[NIL_HASH] == Proof([9, 7], {1})
  {
    LeadsToF();
    FilesLate(LateRun()[..4], Committed(Proposed(EnteredSeven(), BLOCK_F), BLOCK_F.header, {0}));
    assert LateRun()[..4] + [Input(LateVotes(), SMVote(Prevote, NIL_HASH, 1))] == LateRun();
  }
}
