/** Concrete runs: how the mirror comes to send what a state machine cannot handle, and to lose a
  precommit it had accepted. */
module Scenarios {
  import opened Options
  import opened Quorum
  import opened Votes
  import opened Views
  import opened KernelSpec
  import opened KernelInv
  import opened MirrorSystem
  import opened MirrorRuns
  import RoundSpec
  import Entrances

  /** The run `es` ends in kernel state `k`, with the handlers `pending`. */
  ghost predicate Leads(vals: ValSet, es: seq<Input>, k: K, pending: map<nat, Pending>) {
    ForwardRun(Start(1, vals), es) && Run(Start(1, vals), es) == Ok(Mirror(k, pending))
  }

  lemma Begin(vals: ValSet)
    ensures Leads(vals, [], InitialK(1, vals), map[])
  {
  }

  lemma Continue(vals: ValSet, es: seq<Input>, k: K, pending: map<nat, Pending>, x: Input, k': K, pending': map<nat, Pending>)
    requires Leads(vals, es, k, pending) && Forward(Mirror(k, pending), x.event)
    requires Step(x.signed, Mirror(k, pending), x.event) == Ok(Mirror(k', pending'))
    ensures Leads(vals, es + [x], k', pending')
  {
    var m, fs := Start(1, vals), es + [x];
    assert fs[..|es|] == es;
    forall i | 0 <= i < |fs| ensures ForwardAt(m, fs, i) {
      if i < |es| {
        assert ForwardAt(m, es, i);
        assert fs[..i] == es[..i];
      }
    }
  }

  // ----- One handler's precommits -----

  /** Only `claim` has precommitted in the voting view, and only for `hash`. */
  function Voted(k: K, hash: Hash, claim: set<nat>): K {
    var p := Power(k.voting.vals.powers, claim);
    Mark(k.(voting := k.voting.(
      precommits := Ballot(map[hash := Proof(k.voting.vals.keys, claim)], map[hash := 1]),
      summary := k.voting.summary.(precommits := Tally(p, map[hash := p], hash)))), VotingView)
  }

  lemma OneBlockTally(powers: seq<nat>, keys: seq<Key>, hash: Hash, claim: set<nat>)
    requires Power(powers, claim) > 0
    ensures
      var p := Power(powers, claim);
      TallyOf(powers, map[hash := Proof(keys, claim)]) == Tally(p, map[hash := p], hash)
  {
    var p := Power(powers, claim);
    var proofs := map[hash := Proof(keys, claim)];
    LexTotal(hash, hash);
    var m: map<Hash, nat> := map[];
    SumInsert(m, hash, p);
    assert m[hash := p] == map[hash := p];
    assert BlockPowers(powers, proofs) == map[hash := p];
    TallyUnique(powers, proofs, Tally(p, map[hash := p], hash), TallyOf(powers, proofs));
  }

  /** The kernel awaits the first precommit of the voting round. */
  predicate Awaits(k: K, h: nat, r: nat) {
    && Matches(k.voting, h, r) && k.voting.precommits == EMPTY_BALLOT && k.voting.version > 0
    && k.voting.summary.available == Total(k.voting.vals.powers) > 0
  }

  /** `claim` are a majority, and precommitted `hash` in the voting round. */
  predicate Claimed(signed: set<Vote>, k: K, hash: Hash, claim: set<nat>) {
    && Total(k.voting.vals.powers) > 0
    && Power(k.voting.vals.powers, claim) >= ByzantineMajority(Total(k.voting.vals.powers))
    && forall i :: i in claim ==> i < |k.voting.vals.keys| && Vote(Precommit, k.voting.vals.keys[i], k.voting.h, k.voting.r, hash) in signed
  }

  function FirstUpdate(k: K, hash: Hash, claim: set<nat>): map<Hash, VoteUpdate> {
    map[hash := VoteUpdate(Proof(k.voting.vals.keys, claim), 0)]
  }

  lemma FirstPrepared(signed: set<Vote>, k: K, h: nat, r: nat, hash: Hash, claim: set<nat>)
    requires Awaits(k, h, r) && Claimed(signed, k, hash, claim)
    ensures SigsToAdd(k.voting, Precommit, map[hash := claim]) == map[hash := claim]
    ensures PrepareUpdates(signed, k.voting, Precommit, map[hash := claim]) == FirstUpdate(k, hash, claim)
  {
    PowerOfNobody(k.voting.vals.powers);
    assert claim != {};
    assert BaseProof(k.voting, Precommit, hash) == Proof(k.voting.vals.keys, {});
    assert Missing(k.voting, Precommit, hash, claim) == claim;
    assert Verified(signed, Proof(k.voting.vals.keys, {}), Precommit, k.voting.h, k.voting.r, hash, claim) == claim;
    assert SigsToAdd(k.voting, Precommit, map[hash := claim]) == map[hash := claim];
    assert MergeSparse(signed, Proof(k.voting.vals.keys, {}), Precommit, k.voting.h, k.voting.r, hash, claim)
        == Proof(k.voting.vals.keys, claim) by { assert {} + claim == claim; }
  }

  lemma FirstStored(k: K, h: nat, r: nat, hash: Hash, claim: set<nat>)
    requires Awaits(k, h, r) && Power(k.voting.vals.powers, claim) > 0
    ensures AllApply(k.voting.precommits, FirstUpdate(k, hash, claim))
    ensures StoreVotes(k, VotingView, Precommit, FirstUpdate(k, hash, claim)) == Ok(Voted(k, hash, claim))
  {
    var updates := FirstUpdate(k, hash, claim);
    assert Applies(EMPTY_BALLOT, updates, hash);
    assert ApplyUpdates(EMPTY_BALLOT, updates)
        == Ballot(map[hash := Proof(k.voting.vals.keys, claim)], map[hash := 1]);
    OneBlockTally(k.voting.vals.powers, k.voting.vals.keys, hash, claim);
  }

  /** A handler looks the voting view up and submits a majority's precommits. */
  lemma FirstVotes(vals: ValSet, es: seq<Input>, k: K, signed: set<Vote>, h: nat, r: nat, hash: Hash, claim: set<nat>)
    requires Leads(vals, es, k, map[]) && Awaits(k, h, r) && Claimed(signed, k, hash, claim)
    requires CheckVotingShift(Voted(k, hash, claim)).Ok?
    ensures
      Leads(vals, es + [Input(signed, Lookup(0, Precommit, h, r, k.voting.vals.keys, map[hash := claim]))] + [Input(signed, Submit(0))],
            CheckVotingShift(Voted(k, hash, claim)).value, map[])
  {
    FirstPrepared(signed, k, h, r, hash, claim);
    FirstStored(k, h, r, hash, claim);
    var p := Pending(Precommit, h, r, FirstUpdate(k, hash, claim), MergedSigners(signed, k.voting, Precommit, map[hash := claim]));
    var x := Input(signed, Lookup(0, Precommit, h, r, k.voting.vals.keys, map[hash := claim]));
    Continue(vals, es, k, map[], x, k, map[0 := p]);
    assert map[0 := p] - {0} == map[];
    Continue(vals, es + [x], k, map[0 := p], Input(signed, Submit(0)), CheckVotingShift(Voted(k, hash, claim)).value, map[]);
  }

  // ----- A header, and a majority for it -----

  function Proposed(k: K, ph: ProposedHeader): K {
    Mark(k.(voting := k.voting.(headers := [ph])), VotingView)
  }

  lemma FirstHeader(vals: ValSet, es: seq<Input>, k: K, signed: set<Vote>, h: nat, r: nat, ph: ProposedHeader)
    requires Leads(vals, es, k, map[]) && Awaits(k, h, r) && k.voting.headers == []
    requires ph.header.height == h > 0 && ph.round == r && ph.header.prevCommit == map[]
    ensures Leads(vals, es + [Input(signed, NewHeader(ph))], Proposed(k, ph), map[])
    ensures Awaits(Proposed(k, ph), h, r)
  {
    assert [] + [ph] == [ph];
    var k1 := Proposed(k, ph);
    assert Backfill(signed, k1.committing, map[]) == k1.committing.precommits.proofs;
    assert AddHeader(signed, k, ph) == Ok(k1);
    Continue(vals, es, k, map[], Input(signed, NewHeader(ph)), k1, map[]);
  }

  function Committed(k: K, header: Header, claim: set<nat>): K {
    var k1 := Voted(k, header.hash, claim);
    ShiftToCommitting(k1.(log := k1.log + [CommitRecord(k1.voting, header.hash)]), header)
  }

  lemma FirstCommit(vals: ValSet, es: seq<Input>, k: K, signed: set<Vote>, h: nat, r: nat, ph: ProposedHeader, claim: set<nat>)
    requires Leads(vals, es, k, map[]) && Awaits(k, h, r) && k.voting.headers == [ph]
    requires ph.header.hash != NIL_HASH && Claimed(signed, k, ph.header.hash, claim)
    requires Total(ph.header.nextVals.powers) > 0
    ensures
      Leads(vals,
            es + [Input(signed, Lookup(0, Precommit, h, r, k.voting.vals.keys, map[ph.header.hash := claim]))] + [Input(signed, Submit(0))],
            Committed(k, ph.header, claim), map[])
    ensures Awaits(Committed(k, ph.header, claim), h + 1, 0) && Committed(k, ph.header, claim).voting.headers == []
  {
    var k1 := Voted(k, ph.header.hash, claim);
    assert FindHeader(k1.voting.headers, ph.header.hash) == Some(ph.header);
    assert CheckVotingShift(k1) == Ok(Committed(k, ph.header, claim));
    FirstVotes(vals, es, k, signed, h, r, ph.header.hash, claim);
  }

  /** A nil majority. */
  lemma FirstNil(vals: ValSet, es: seq<Input>, k: K, signed: set<Vote>, h: nat, r: nat, claim: set<nat>)
    requires Leads(vals, es, k, map[]) && Awaits(k, h, r) && Claimed(signed, k, NIL_HASH, claim)
    requires k.nextRound == FreshView(h, r + 1, k.voting.vals).(version := k.nextRound.version)
    ensures
      Leads(vals, es + [Input(signed, Lookup(0, Precommit, h, r, k.voting.vals.keys, map[NIL_HASH := claim]))] + [Input(signed, Submit(0))],
            AdvanceRound(Voted(k, NIL_HASH, claim)), map[])
    ensures
      var k1 := AdvanceRound(Voted(k, NIL_HASH, claim));
      Awaits(k1, h, r + 1) && k1.voting.headers == [] && k1.voting.vals == k.voting.vals
  {
    FirstVotes(vals, es, k, signed, h, r, NIL_HASH, claim);
  }

  // ----- A state machine that is slow for two heights -----

  /** One validator, at every height. */
  const ONE := ValSet([7], [1])

  const BLOCK_A := ProposedHeader(Header("a", 1, ONE, ONE, "", map[]), 0, "s")
  const BLOCK_B := ProposedHeader(Header("b", 2, ONE, ONE, "", map[]), 0, "t")

  function Released(): set<Vote> {
    {Vote(Precommit, 7, 1, 0, "a"), Vote(Precommit, 7, 2, 0, "b")}
  }

  lemma OnePower()
    ensures Total([1]) == 1 && Power([1], {0}) == 1 && ByzantineMajority(1) == 1
  {
  }

  function EnteredFirst(): K {
    Enter(InitialK(1, ONE), 1, 0, None).value
  }

  lemma FirstEntrance(signed: set<Vote>)
    ensures Enter(InitialK(1, ONE), 1, 0, None).Ok?
    ensures Leads(ONE, [Input(signed, SMEnter(1, 0, None))], EnteredFirst(), map[])
    ensures Awaits(EnteredFirst(), 1, 0) && EnteredFirst().voting.headers == [] && EnteredFirst().voting.vals == ONE
    ensures EnteredFirst().nextRound == FreshView(1, 1, ONE).(version := 1)
  {
    OnePower();
    Begin(ONE);
    Continue(ONE, [], InitialK(1, ONE), map[], Input(signed, SMEnter(1, 0, None)), EnteredFirst(), map[]);
  }

  /** The validator proposes a block and precommits it. */
  function Block(signed: set<Vote>, ph: ProposedHeader): seq<Input> {
    [Input(signed, NewHeader(ph)),
     Input(signed, Lookup(0, Precommit, ph.header.height, ph.round, [7], map[ph.header.hash := {0}])), Input(signed, Submit(0))]
  }

  function Took(k: K, ph: ProposedHeader): K {
    Committed(Proposed(k, ph), ph.header, {0})
  }

  predicate Idles(k: K, h: nat, r: nat) {
    Awaits(k, h, r) && k.voting.headers == [] && k.voting.vals == ONE
  }

  lemma TakesBlock(es: seq<Input>, k: K, signed: set<Vote>, ph: ProposedHeader)
    requires Leads(ONE, es, k, map[]) && Idles(k, ph.header.height, ph.round)
    requires ph.header.height > 0 && ph.header.hash != NIL_HASH && ph.header.nextVals == ONE && ph.header.prevCommit == map[]
    requires Vote(Precommit, 7, ph.header.height, ph.round, ph.header.hash) in signed
    ensures Leads(ONE, es + Block(signed, ph), Took(k, ph), map[]) && Idles(Took(k, ph), ph.header.height + 1, 0)
  {
    OnePower();
    var bs := Block(signed, ph);
    FirstHeader(ONE, es, k, signed, ph.header.height, ph.round, ph);
    FirstCommit(ONE, es + [bs[0]], Proposed(k, ph), signed, ph.header.height, ph.round, ph, {0});
    assert es + [bs[0]] + [bs[1]] + [bs[2]] == es + bs;
  }

  /** The state machine enters the first round; the mirror then commits heights one and two. */
  function TwoCommits(): seq<Input> {
    [Input(Released(), SMEnter(1, 0, None))] + Block(Released(), BLOCK_A) + Block(Released(), BLOCK_B)
  }

  lemma TwoCommitsRun()
    ensures Leads(ONE, TwoCommits(), Took(Took(EnteredFirst(), BLOCK_A), BLOCK_B), map[])
  {
    FirstEntrance(Released());
    TakesBlock([Input(Released(), SMEnter(1, 0, None))], EnteredFirst(), Released(), BLOCK_A);
    TakesBlock([Input(Released(), SMEnter(1, 0, None))] + Block(Released(), BLOCK_A), Took(EnteredFirst(), BLOCK_A), Released(), BLOCK_B);
  }

  lemma TakesOwnBlock(k: K, ph: ProposedHeader)
    requires Idles(k, ph.header.height, ph.round) && Matches(k.voting, k.sm.h, k.sm.r) && k.sm.jumpAhead.None?
    ensures
      var m := Took(k, ph).sm;
      m == k.sm.(outgoing := Took(k, ph).committing,
                 heightCommitted := k.sm.heightCommitted || (k.sm.h > 0 && k.sm.h == k.committing.h))
    ensures Matches(Took(k, ph).committing, k.sm.h, k.sm.r) && Took(k, ph).committing.version > k.voting.version
  {
  }

  lemma TakesNextBlock(k: K, ph: ProposedHeader)
    requires Idles(k, ph.header.height, ph.round) && Matches(k.committing, k.sm.h, k.sm.r) && 0 < k.sm.h < k.voting.h
    ensures
      var m := Took(k, ph).sm;
      m == k.sm.(jumpAhead := Some(Took(k, ph).committing), heightCommitted := true)
    ensures Matches(Took(k, ph).committing, ph.header.height, ph.round)
  {
  }

  /** The state machine as it enters its first round. */
  function Newcomer(): RoundSpec.Life {
    RoundSpec.Start(
      RoundSpec.AtGenesis(None, 1, ONE, "", "").(
        step := RoundSpec.AwaitingProposal, view := Some(InitialK(1, ONE).voting),
        actionsCh := false, sent := 0, lastDelivered := 1, entered := InitialK(1, ONE).voting),
      RoundSpec.AwaitingProposal)
  }

  /** It is what a state machine becomes when the mirror answers its first entrance with its first view. */
  ghost predicate IsNewcomer(l: RoundSpec.Life) {
    RoundSpec.StartLive(RoundSpec.AtGenesis(None, 1, ONE, "", ""), InitialK(1, ONE).voting, [])
    == RoundSpec.Ok(RoundSpec.Done(l, true, []))
  }

  lemma NewcomerEnters()
    ensures IsNewcomer(Newcomer())
  {
    OnePower();
    assert InitialK(1, ONE).voting.version == 1;
  }

  lemma NewcomerStays(v: View, resp: seq<RoundSpec.Response>)
    requires v.summary.precommits.mostVoted != NIL_HASH
    requires v.summary.available > 0 && PowerFor(v.summary.precommits, v.summary.precommits.mostVoted) >= ByzantineMajority(v.summary.available)
    ensures
      var o := RoundSpec.OnProposalView(Newcomer().(lastDelivered := v.version), v, resp);
      o.Ok? ==> o.value.l.mode.Live? && o.value.l.h == 1
  {
  }

  lemma NewcomerRefuses(v: View, jump: View, resp: seq<RoundSpec.Response>)
    requires Matches(v, 1, 0) && v.version > 1 && v.summary.precommits.mostVoted != NIL_HASH && jump.h > 1
    requires v.summary.available > 0 && PowerFor(v.summary.precommits, v.summary.precommits.mostVoted) >= ByzantineMajority(v.summary.available)
    ensures RoundSpec.ViewUpdate(Newcomer(), Some(v), Some(jump), resp).Panic?
  {
    NewcomerStays(v, resp);
    assert RoundSpec.OnView(Newcomer().(lastDelivered := v.version), v, resp)
        == RoundSpec.OnProposalView(Newcomer().(lastDelivered := v.version), v, resp);
  }

  lemma TwoCommitsSent()
    ensures
      var m := Took(Took(EnteredFirst(), BLOCK_A), BLOCK_B).sm;
      && m.h == 1 && m.r == 0 && m.heightCommitted && m.lastSent == 1
      && m.outgoing == Took(EnteredFirst(), BLOCK_A).committing && m.outgoing.version > 1 && Matches(m.outgoing, 1, 0)
      && m.jumpAhead.Some? && Matches(m.jumpAhead.value, 2, 0)
  {
    FirstEntrance(Released());
    TakesBlock([Input(Released(), SMEnter(1, 0, None))], EnteredFirst(), Released(), BLOCK_A);
    TakesOwnBlock(EnteredFirst(), BLOCK_A);
    TakesNextBlock(Took(EnteredFirst(), BLOCK_A), BLOCK_B);
  }

  lemma TookMajority(k: K, ph: ProposedHeader)
    requires Idles(k, ph.header.height, ph.round)
    ensures
      var v := Took(k, ph).committing;
      && v.summary.available == 1
      && v.summary.precommits.mostVoted == ph.header.hash && PowerFor(v.summary.precommits, ph.header.hash) == 1
  {
    OnePower();
  }

  lemma BothSent(m: SMViews)
    requires Matches(m.outgoing, m.h, m.r) && m.outgoing.version > m.lastSent
    ensures Output(m) == Send(Some(m.outgoing), m.jumpAhead, m.outgoing.version)
  {
  }

  lemma TwoCommitsOutput()
    ensures ForwardRun(Start(1, ONE), TwoCommits()) && Run(Start(1, ONE), TwoCommits()).Ok?
    ensures
      var m := Run(Start(1, ONE), TwoCommits()).value.k.sm;
      && m.h == 1 && m.r == 0 && m.heightCommitted
      && Output(m) == Send(Some(Took(EnteredFirst(), BLOCK_A).committing), m.jumpAhead, m.outgoing.version)
      && m.jumpAhead.Some? && m.jumpAhead.value.h == 2
      && Took(EnteredFirst(), BLOCK_A).committing.version > 1 && Matches(Took(EnteredFirst(), BLOCK_A).committing, 1, 0)
  {
    TwoCommitsRun();
    TwoCommitsSent();
    BothSent(Took(Took(EnteredFirst(), BLOCK_A), BLOCK_B).sm);
  }

  lemma NewcomerUnready(resp: seq<RoundSpec.Response>)
    ensures RoundSpec.Handle(Newcomer(), RoundSpec.HeightCommitted, resp).Panic?
  {
  }

  /** The mirror commits two heights before the state machine, which has just entered the first, reacts.
    What it then sends makes the state machine panic: both the jump, to another height, and the signal
    that the height is committed. */
  lemma JumpToNextHeight(resp: seq<RoundSpec.Response>)
    ensures IsNewcomer(Newcomer())
    ensures ForwardRun(Start(1, ONE), TwoCommits()) && Run(Start(1, ONE), TwoCommits()).Ok?
    ensures
      var m := Run(Start(1, ONE), TwoCommits()).value.k.sm;
      var out := Output(m);
      && m.h == 1 && m.r == 0
      && out.Send? && out.jump.Some? && out.jump.value.h == 2 && m.heightCommitted
      && RoundSpec.ViewUpdate(Newcomer(), out.vrv, out.jump, resp).Panic?
      && RoundSpec.Handle(Newcomer(), RoundSpec.HeightCommitted, resp).Panic?
  {
    NewcomerEnters();
    TwoCommitsOutput();
    FirstEntrance(Released());
    TookMajority(EnteredFirst(), BLOCK_A);
    OnePower();
    NewcomerUnready(resp);
    var m := Run(Start(1, ONE), TwoCommits()).value.k.sm;
    NewcomerRefuses(Took(EnteredFirst(), BLOCK_A).committing, m.jumpAhead.value, resp);
  }

  // ----- A state machine that is slow for two rounds -----

  const BLOCK_C := ProposedHeader(Header("c", 1, ONE, ONE, "", map[]), 1, "u")

  function ReleasedNil(): set<Vote> {
    {Vote(Precommit, 7, 1, 0, NIL_HASH), Vote(Precommit, 7, 1, 1, "c")}
  }

  /** The validator precommits nil in the first round and a block in the second. */
  function NilThenCommit(): seq<Input> {
    [Input(ReleasedNil(), SMEnter(1, 0, None)),
     Input(ReleasedNil(), Lookup(0, Precommit, 1, 0, [7], map[NIL_HASH := {0}])), Input(ReleasedNil(), Submit(0))]
    + Block(ReleasedNil(), BLOCK_C)
  }

  function LeftFirst(): K {
    AdvanceRound(Voted(EnteredFirst(), NIL_HASH, {0}))
  }

  lemma LeavesFirst()
    ensures Leads(ONE, NilThenCommit()[..3], LeftFirst(), map[]) && Idles(LeftFirst(), 1, 1)
  {
    OnePower();
    var signed, es := ReleasedNil(), NilThenCommit();
    FirstEntrance(signed);
    assert Claimed(signed, EnteredFirst(), NIL_HASH, {0});
    FirstNil(ONE, [es[0]], EnteredFirst(), signed, 1, 0, {0});
    assert [es[0]] + [es[1]] + [es[2]] == es[..3];
  }

  lemma NilThenCommitRun()
    ensures Leads(ONE, NilThenCommit(), Took(LeftFirst(), BLOCK_C), map[])
  {
    LeavesFirst();
    TakesBlock(NilThenCommit()[..3], LeftFirst(), ReleasedNil(), BLOCK_C);
    assert NilThenCommit()[..3] + Block(ReleasedNil(), BLOCK_C) == NilThenCommit();
  }

  lemma LeavesView(k: K)
    requires Idles(k, k.sm.h, k.sm.r) && k.sm.jumpAhead.None? && k.nextRound.h == k.voting.h && k.nextRound.r == k.voting.r + 1
    ensures
      var m := AdvanceRound(Voted(k, NIL_HASH, {0})).sm;
      && m == k.sm.(outgoing := m.outgoing)
      && Matches(m.outgoing, k.sm.h, k.sm.r) && m.outgoing.version > k.voting.version && Entrances.NilMajority(m.outgoing)
  {
    OnePower();
  }

  lemma TakesNextRound(k: K, ph: ProposedHeader)
    requires Idles(k, ph.header.height, ph.round) && k.sm.h == k.voting.h && k.sm.r < k.voting.r && k.committing.h < k.sm.h
    ensures Took(k, ph).sm == k.sm.(jumpAhead := Some(Took(k, ph).committing))
    ensures Matches(Took(k, ph).committing, ph.header.height, ph.round)
  {
  }

  lemma NilThenCommitSent()
    ensures
      var m := Took(LeftFirst(), BLOCK_C).sm;
      && m.h == 1 && m.r == 0 && m.lastSent == 1
      && Matches(m.outgoing, 1, 0) && m.outgoing.version > 1 && Entrances.NilMajority(m.outgoing)
      && m.jumpAhead == Some(Took(LeftFirst(), BLOCK_C).committing) && Matches(m.jumpAhead.value, 1, 1)
  {
    FirstEntrance(ReleasedNil());
    LeavesFirst();
    LeavesView(EnteredFirst());
    TakesNextRound(LeftFirst(), BLOCK_C);
  }

  /** A view with a majority for a block. */
  predicate BlockMajority(v: View) {
    var t := v.summary.precommits;
    && v.summary.available > 0 && t.mostVoted != NIL_HASH
    && PowerFor(t, t.mostVoted) >= ByzantineMajority(v.summary.available) && t.total >= ByzantineMajority(v.summary.available)
  }

  lemma EntersCommit(l: RoundSpec.Life, v: View)
    requires BlockMajority(v)
    ensures
      var o := RoundSpec.BeginRoundLive(l, v, []);
      o.Ok? && o.value.l.h == l.h && o.value.l.r == l.r && o.value.l.mode == l.mode && o.value.rest == []
  {
    Entrances.CommitEnters(l, v, []);
  }

  lemma AdvancesInto(l: RoundSpec.Life, content: View)
    requires BlockMajority(content)
    ensures
      var o := RoundSpec.AdvanceRound(l, [RoundSpec.Entered(content)]);
      o.Ok? && o.value.l.h == l.h && o.value.l.r == l.r + 1 && o.value.l.mode == l.mode && o.value.rest == []
  {
    var l1 := RoundSpec.ResetRound(l, l.h, l.r + 1);
    var v := content.(h := l1.h, r := l1.r);
    var resp := [RoundSpec.Entered(content)];
    assert resp[1..] == [];
    assert RoundSpec.AdvanceRound(l, resp) == RoundSpec.Advance(l1, resp) == RoundSpec.EnterWith(l1, v, []);
    EntersCommit(l1.(actionsCh := RoundSpec.Participating(l1), sent := 0, lastDelivered := v.version, entered := v), v);
  }

  lemma NewcomerLeaves(v: View, resp: seq<RoundSpec.Response>)
    requires Entrances.NilMajority(v)
    ensures
      var l := Newcomer().(lastDelivered := v.version);
      RoundSpec.OnView(l, v, resp) == RoundSpec.AdvanceRound(l.(timer := None), resp)
  {
  }

  lemma NewcomerArrived(v: View, jump: View, content: View)
    requires Matches(v, 1, 0) && v.version > 1 && Entrances.NilMajority(v) && Matches(jump, 1, 1) && BlockMajority(content)
    ensures RoundSpec.ViewUpdate(Newcomer(), Some(v), Some(jump), [RoundSpec.Entered(content)]).Panic?
    ensures RoundSpec.JumpAhead(Newcomer(), jump, [RoundSpec.Entered(content)]).Ok?
  {
    var l, resp := Newcomer().(lastDelivered := v.version), [RoundSpec.Entered(content)];
    NewcomerLeaves(v, resp);
    AdvancesInto(l.(timer := None), content);
    AdvancesInto(Newcomer(), content);
  }

  lemma TookBlock(k: K, ph: ProposedHeader)
    requires Idles(k, ph.header.height, ph.round) && ph.header.hash != NIL_HASH
    ensures BlockMajority(Took(k, ph).committing)
  {
    TookMajority(k, ph);
    OnePower();
  }

  /** The first round ends with a nil majority and the second commits before the state machine, which has
    just entered the first, reacts. The mirror sends the view of the first round together with a jump to
    the second. Handling the view already takes the state machine to the second round, where the jump to
    that same round makes it panic; on its own the jump would have been fine. */
  lemma JumpToSameHeight()
    ensures IsNewcomer(Newcomer())
    ensures ForwardRun(Start(1, ONE), NilThenCommit()) && Run(Start(1, ONE), NilThenCommit()).Ok?
    ensures
      var k := Run(Start(1, ONE), NilThenCommit()).value.k;
      var out := Output(k.sm);
      && k.sm.h == 1 && k.sm.r == 0 && Matches(k.committing, 1, 1)
      && out.Send? && out.jump.Some? && Matches(out.jump.value, 1, 1)
      && RoundSpec.ViewUpdate(Newcomer(), out.vrv, out.jump, [RoundSpec.Entered(k.committing)]).Panic?
      && RoundSpec.ViewUpdate(Newcomer(), None, out.jump, [RoundSpec.Entered(k.committing)]).Ok?
  {
    NewcomerEnters();
    NilThenCommitRun();
    NilThenCommitSent();
    LeavesFirst();
    TookBlock(LeftFirst(), BLOCK_C);
    var k := Took(LeftFirst(), BLOCK_C);
    BothSent(k.sm);
    NewcomerArrived(k.sm.outgoing, k.committing, k.committing);
  }

  // ----- A precommit that is accepted and lost -----

  const THREE := ValSet([7, 8, 9], [10, 1, 1])

  const BLOCK_D := ProposedHeader(Header("d", 1, THREE, THREE, "", map[]), 0, "v")

  /** The next height's header carries the second validator's precommit. */
  const BLOCK_E := ProposedHeader(Header("e", 2, THREE, THREE, "", map["d" := {1}]), 0, "w")

  function AllForD(): set<Vote> {
    {Vote(Precommit, 7, 1, 0, "d"), Vote(Precommit, 8, 1, 0, "d"), Vote(Precommit, 9, 1, 0, "d")}
  }

  /** The first validator commits the block alone. */
  function CommitAlone(): seq<Input> {
    [Input(AllForD(), NewHeader(BLOCK_D))]
    + [Input(AllForD(), Lookup(0, Precommit, 1, 0, [7, 8, 9], map["d" := {0}]))] + [Input(AllForD(), Submit(0))]
  }

  /** A handler with the third validator's precommit looks the committing view up; then the next header
    arrives. */
  function LateHeader(): seq<Input> {
    CommitAlone() + [Input(AllForD(), Lookup(1, Precommit, 1, 0, [7, 8, 9], map["d" := {2}]))] + [Input(AllForD(), NewHeader(BLOCK_E))]
  }

  /** Then the handler submits. */
  function LateSubmission(): seq<Input> {
    LateHeader() + [Input(AllForD(), Submit(1))]
  }

  lemma ThreePowers()
    ensures Total(THREE.powers) == 12 && Power(THREE.powers, {0}) == 10 && ByzantineMajority(12) == 9
  {
    assert [10, 1, 1][..2] == [10, 1] && [10, 1][..1] == [10];
    assert Total([10]) == 10 && Power([10], {0}) == 10;
    assert Total([10, 1]) == 11 && Power([10, 1], {0}) == 10;
  }

  function CommittedD(): K {
    Committed(Proposed(InitialK(1, THREE), BLOCK_D), BLOCK_D.header, {0})
  }

  /** Height one is committed on the first validator's precommit alone; the next height is empty. */
  ghost predicate AloneCommitted(k: K) {
    && Inv(k) && Awaits(k, 2, 0) && k.voting.headers == []
    && Matches(k.committing, 1, 0) && k.committing.vals == THREE && k.committing.version > 0
    && k.committing.precommits == Ballot(map["d" := Proof(THREE.keys, {0})], map["d" := 1])
  }

  lemma CommitsD()
    ensures Leads(THREE, CommitAlone(), CommittedD(), map[]) && Awaits(CommittedD(), 2, 0) && CommittedD().voting.headers == []
  {
    var k := InitialK(1, THREE);
    ThreePowers();
    Begin(THREE);
    FirstHeader(THREE, [], k, AllForD(), 1, 0, BLOCK_D);
    assert Claimed(AllForD(), Proposed(k, BLOCK_D), "d", {0});
    assert [] + [Input(AllForD(), NewHeader(BLOCK_D))] == [Input(AllForD(), NewHeader(BLOCK_D))];
    FirstCommit(THREE, [Input(AllForD(), NewHeader(BLOCK_D))], Proposed(k, BLOCK_D), AllForD(), 1, 0, BLOCK_D, {0});
  }

  lemma LeadsToInv(vals: ValSet, es: seq<Input>, k: K, pending: map<nat, Pending>)
    requires Leads(vals, es, k, pending)
    ensures Inv(k)
  {
    assert es[..|es|] == es;
    RunKeeps(1, vals, es, |es|);
  }

  lemma CommittedVotes()
    ensures
      var v := CommittedD().committing;
      && Matches(v, 1, 0) && v.vals == THREE && v.version > 0
      && v.precommits == Ballot(map["d" := Proof(THREE.keys, {0})], map["d" := 1])
  {
  }

  /** The handler's update, prepared before the next header arrives. */
  ghost function LateVote(v: View): Pending {
    Pending(Precommit, 1, 0, PrepareUpdates(AllForD(), v, Precommit, map["d" := {2}]), MergedSigners(AllForD(), v, Precommit, map["d" := {2}]))
  }

  lemma LooksUp(es: seq<Input>, k: K)
    requires Leads(THREE, es, k, map[]) && AloneCommitted(k)
    ensures Leads(THREE, es + [Input(AllForD(), Lookup(1, Precommit, 1, 0, [7, 8, 9], map["d" := {2}]))], k, map[1 := LateVote(k.committing)])
    ensures Missing(k.committing, Precommit, "d", {2}) == {2}
    ensures LateVote(k.committing).merged == map["d" := {2}]
  {
    assert Missing(k.committing, Precommit, "d", {2}) == {2};
    assert Verified(AllForD(), Proof(THREE.keys, {0}), Precommit, 1, 0, "d", {2}) == {2};
    assert SigsToAdd(k.committing, Precommit, map["d" := {2}]) == map["d" := {2}];
    assert FindView(k, 1, 0) == Found(CommittingView);
    Continue(THREE, es, k, map[], Input(AllForD(), Lookup(1, Precommit, 1, 0, [7, 8, 9], map["d" := {2}])),
             k, map[1 := LateVote(k.committing)]);
  }

  /** A first header backfills the committing view, and causes no shift. */
  lemma FirstHeaderBackfills(signed: set<Vote>, k: K, h: nat, r: nat, ph: ProposedHeader)
    requires Awaits(k, h, r) && k.voting.headers == [] && Inv(k)
    requires ph.header.height == h > 0 && ph.round == r
    ensures AddHeader(signed, k, ph) == BackfillCommitting(signed, Proposed(k, ph), ph.header.prevCommit)
    ensures Inv(Proposed(k, ph)) && Proposed(k, ph).committing == k.committing
  {
    assert [] + [ph] == [ph];
    var w := k.voting.(headers := [ph]);
    assert Touch(k, VotingView, w) == Proposed(k, ph);
    TouchKeeps(k, VotingView, w);
    if BackfillCommitting(signed, Proposed(k, ph), ph.header.prevCommit).Ok? {
      BackfillKeeps(signed, Proposed(k, ph), ph.header.prevCommit);
    }
  }

  ghost function Backfilled(k: K): Outcome<K> {
    BackfillCommitting(AllForD(), Proposed(k, BLOCK_E), map["d" := {1}])
  }

  lemma Backfills(es: seq<Input>, k: K, p: Pending)
    requires Leads(THREE, es, k, map[1 := p]) && AloneCommitted(k)
    ensures Backfilled(k).Ok? && Leads(THREE, es + [Input(AllForD(), NewHeader(BLOCK_E))], Backfilled(k).value, map[1 := p])
  {
    FirstHeaderBackfills(AllForD(), k, 2, 0, BLOCK_E);
    Continue(THREE, es, k, map[1 := p], Input(AllForD(), NewHeader(BLOCK_E)), Backfilled(k).value, map[1 := p]);
  }

  lemma OverwrittenIn(k: K, v: View)
    requires Inv(k) && k.committing == v && Matches(v, 1, 0) && v.version > 0
    requires v.precommits == Ballot(map["d" := Proof(THREE.keys, {0})], map["d" := 1])
    requires Missing(v, Precommit, "d", {2}) == {2} && LateVote(v).merged == map["d" := {2}]
    requires BackfillCommitting(AllForD(), k, map["d" := {1}]).Ok?
    ensures
      var kb := BackfillCommitting(AllForD(), k, map["d" := {1}]).value;
      var o := AddVotes(kb, Precommit, 1, 0, LateVote(v).updates);
      && Signers(kb.committing.precommits, "d") == {0, 1}
      && o.Ok? && o.value.1 == Accepted && Signers(o.value.0.committing.precommits, "d") == {0, 2}
  {
    BackfillIsOverwritten(AllForD(), k, map["d" := {1}], map["d" := {2}], "d");
    assert Verified(AllForD(), Proof(THREE.keys, {0}), Precommit, 1, 0, "d", {1}) == {1};
    assert {0} + {1} == {0, 1} && {0} + {2} == {0, 2};
  }

  lemma Overwritten(k: K)
    requires AloneCommitted(k)
    requires Missing(k.committing, Precommit, "d", {2}) == {2} && LateVote(k.committing).merged == map["d" := {2}]
    requires Backfilled(k).Ok?
    ensures
      var kb := Backfilled(k).value;
      var o := AddVotes(kb, Precommit, 1, 0, LateVote(k.committing).updates);
      && Signers(kb.committing.precommits, "d") == {0, 1}
      && o.Ok? && o.value.1 == Accepted && Signers(o.value.0.committing.precommits, "d") == {0, 2}
  {
    FirstHeaderBackfills(AllForD(), k, 2, 0, BLOCK_E);
    OverwrittenIn(Proposed(k, BLOCK_E), k.committing);
  }

  lemma SubmitsLast(es: seq<Input>, k: K, p: Pending)
    requires Leads(THREE, es, k, map[1 := p]) && AddVotes(k, p.kind, p.h, p.r, p.updates).Ok?
    ensures Leads(THREE, es + [Input(AllForD(), Submit(1))], AddVotes(k, p.kind, p.h, p.r, p.updates).value.0, map[])
  {
    assert map[1 := p] - {1} == map[];
    Continue(THREE, es, k, map[1 := p], Input(AllForD(), Submit(1)), AddVotes(k, p.kind, p.h, p.r, p.updates).value.0, map[]);
  }

  lemma LoseOne(k: K)
    requires Leads(THREE, CommitAlone(), k, map[]) && AloneCommitted(k)
    ensures Backfilled(k).Ok? && Leads(THREE, LateHeader(), Backfilled(k).value, map[1 := LateVote(k.committing)])
    ensures
      var o := AddVotes(Backfilled(k).value, Precommit, 1, 0, LateVote(k.committing).updates);
      && Signers(Backfilled(k).value.committing.precommits, "d") == {0, 1}
      && o.Ok? && o.value.1 == Accepted && Signers(o.value.0.committing.precommits, "d") == {0, 2}
      && Leads(THREE, LateSubmission(), o.value.0, map[])
  {
    var p := LateVote(k.committing);
    LooksUp(CommitAlone(), k);
    Backfills(CommitAlone() + [Input(AllForD(), Lookup(1, Precommit, 1, 0, [7, 8, 9], map["d" := {2}]))], k, p);
    Overwritten(k);
    SubmitsLast(LateHeader(), Backfilled(k).value, p);
  }

  /** The second validator's precommit is in the committing view before the submission, which is
    accepted, and no longer afterwards. */
  lemma AcceptedAndLost()
    ensures ForwardRun(Start(1, THREE), LateSubmission()) && Run(Start(1, THREE), LateSubmission()).Ok?
    ensures Run(Start(1, THREE), LateHeader()).Ok?
    ensures
      var before := Run(Start(1, THREE), LateHeader()).value;
      var after := Run(Start(1, THREE), LateSubmission()).value;
      && AcceptsSubmission(before, 1)
      && Signers(before.k.committing.precommits, "d") == {0, 1}
      && Signers(after.k.committing.precommits, "d") == {0, 2}
  {
    CommitsD();
    CommittedVotes();
    LeadsToInv(THREE, CommitAlone(), CommittedD(), map[]);
    LoseOne(CommittedD());
  }
}
