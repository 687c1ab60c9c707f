/** Concrete runs of a mirror and its state machine together: how the state machine comes to take the mirror's
  view for stale, and to leave a precommit undecided. */
module JointScenarios {
  import opened Options
  import opened Quorum
  import opened Votes
  import opened Views
  import opened KernelSpec
  import opened KernelInv
  import opened MirrorSystem
  import opened MirrorRuns
  import opened Scenarios
  import opened Joint
  import RoundSpec
  import RoundInv
  import RoundRuns
  import Entrances
  import Decisions

  // ----- The start -----

  const ANY_HEADER := Header("", 0, ValSet([], []), ValSet([], []), "", map[])

  /** The mirror answers without any event in between. */
  function AtOnce(g: Genesis): seq<Serving> {
    [Serving([], g.signer, ANY_HEADER)]
  }

  function EnteredAt(g: Genesis): K {
    Enter(InitialK(1, g.vals), 1, 0, g.signer).value
  }

  function Entrant(g: Genesis): RoundSpec.Life {
    var v := InitialK(1, g.vals).voting;
    RoundSpec.Start(
      RoundSpec.AtGenesis(g.signer, 1, g.vals, g.appHash, g.blockHash).(
        step := RoundSpec.AwaitingProposal, view := Some(v),
        actionsCh := g.signer.Some? && g.signer.value in g.vals.keys, sent := 0, lastDelivered := 1, entered := v),
      RoundSpec.AwaitingProposal)
  }

  lemma EntrantEnters(g: Genesis)
    requires g.initialHeight == 1 && Total(g.vals.powers) > 0
    ensures RoundRuns.Begin(ConfigOf(g, InitialK(1, g.vals).voting, [])) == RoundSpec.Ok(RoundSpec.Done(Entrant(g), true, []))
  {
    assert InitialK(1, g.vals).voting.version == 1;
  }

  lemma ServeOne(m: Mirror, h: nat, r: nat, x: Serving)
    requires x.before == [] && Enter(m.k, h, r, x.key).Ok?
    ensures Serve(m, h, r, [x]) == Ok(Served(m.(k := Enter(m.k, h, r, x.key).value), [Answer(m.k, h, r, x.header)]))
  {
    var m2 := Step({}, m, SMEnter(h, r, x.key)).value;
    assert Run(m, x.before) == Ok(m);
    assert [x][1..] == [] && [Answer(m.k, h, r, x.header)] + [] == [Answer(m.k, h, r, x.header)];
    assert Serve(m2, h, r + 1, []) == Ok(Served(m2, []));
  }

  lemma StartsAt(g: Genesis)
    requires g.initialHeight == 1 && Total(g.vals.powers) > 0
    ensures Starting(g, AtOnce(g)) == Ok(Pair(Mirror(EnteredAt(g), map[]), Entrant(g)))
  {
    var m := Start(1, g.vals);
    ServeOne(m, 1, 0, AtOnce(g)[0]);
    assert Answer(m.k, 1, 0, ANY_HEADER) == RoundSpec.Entered(m.k.voting);
    EntrantEnters(g);
    assert [RoundSpec.Entered(m.k.voting)][1..] == [];
  }

  lemma RunLast(m: Mirror, es: seq<Input>)
    requires |es| > 0
    ensures
      var o, x := Run(m, es[..|es| - 1]), es[|es| - 1];
      Run(m, es) == match o case Stuck => Stuck case Ok(m1) => Step(x.signed, m1, x.event)
  {
  }

  lemma {:induction false} RunAppend(m: Mirror, es: seq<Input>, fs: seq<Input>)
    requires Run(m, es).Ok?
    ensures Run(m, es + fs) == Run(Run(m, es).value, fs)
    decreases |fs|
  {
    if |fs| == 0 {
      assert es + fs == es;
    } else {
      var all, front := es + fs, fs[..|fs| - 1];
      assert all[..|all| - 1] == es + front && all[|all| - 1] == fs[|fs| - 1];
      RunAppend(m, es, front);
      RunLast(m, all);
      RunLast(Run(m, es).value, fs);
    }
  }

  // ----- Prevotes -----

  /** Only `claim` has prevoted in the voting view, and only for `hash`. */
  function Prevoted(k: K, hash: Hash, claim: set<nat>): K {
    var p := Power(k.voting.vals.powers, claim);
    Mark(k.(voting := k.voting.(
      prevotes := Ballot(map[hash := Proof(k.voting.vals.keys, claim)], map[hash := 1]),
      summary := k.voting.summary.(prevotes := Tally(p, map[hash := p], hash)))), VotingView)
  }

  predicate PrevoteClaimed(signed: set<Vote>, k: K, hash: Hash, claim: set<nat>) {
    && Power(k.voting.vals.powers, claim) > 0
    && forall i :: i in claim ==> i < |k.voting.vals.keys| && Vote(Prevote, k.voting.vals.keys[i], k.voting.h, k.voting.r, hash) in signed
  }

  lemma PrevotesPrepared(signed: set<Vote>, k: K, hash: Hash, claim: set<nat>)
    requires k.voting.prevotes == EMPTY_BALLOT && PrevoteClaimed(signed, k, hash, claim)
    ensures SigsToAdd(k.voting, Prevote, map[hash := claim]) == map[hash := claim]
    ensures PrepareUpdates(signed, k.voting, Prevote, map[hash := claim]) == FirstUpdate(k, hash, claim)
  {
    PowerOfNobody(k.voting.vals.powers);
    assert claim != {};
    assert BaseProof(k.voting, Prevote, hash) == Proof(k.voting.vals.keys, {});
    assert Missing(k.voting, Prevote, hash, claim) == claim;
    assert Verified(signed, Proof(k.voting.vals.keys, {}), Prevote, k.voting.h, k.voting.r, hash, claim) == claim;
    assert SigsToAdd(k.voting, Prevote, map[hash := claim]) == map[hash := claim];
    assert MergeSparse(signed, Proof(k.voting.vals.keys, {}), Prevote, k.voting.h, k.voting.r, hash, claim)
        == Proof(k.voting.vals.keys, claim) by { assert {} + claim == claim; }
  }

  lemma PrevotesStored(k: K, hash: Hash, claim: set<nat>)
    requires k.voting.prevotes == EMPTY_BALLOT && k.voting.version > 0 && Power(k.voting.vals.powers, claim) > 0
    ensures AllApply(k.voting.prevotes, FirstUpdate(k, hash, claim))
    ensures StoreVotes(k, VotingView, Prevote, FirstUpdate(k, hash, claim)) == Ok(Prevoted(k, hash, claim))
  {
    var updates := FirstUpdate(k, hash, claim);
    assert Applies(EMPTY_BALLOT, updates, hash);
    assert ApplyUpdates(EMPTY_BALLOT, updates)
        == Ballot(map[hash := Proof(k.voting.vals.keys, claim)], map[hash := 1]);
    OneBlockTally(k.voting.vals.powers, k.voting.vals.keys, hash, claim);
  }

  function PrevoteInputs(signed: set<Vote>, k: K, hash: Hash, claim: set<nat>): seq<Input> {
    [Input(signed, Lookup(0, Prevote, k.voting.h, k.voting.r, k.voting.vals.keys, map[hash := claim]))] + [Input(signed, Submit(0))]
  }

  lemma FirstPrevotes(vals: ValSet, es: seq<Input>, k: K, signed: set<Vote>, hash: Hash, claim: set<nat>)
    requires Leads(vals, es, k, map[]) && k.voting.prevotes == EMPTY_BALLOT && k.voting.version > 0
    requires PrevoteClaimed(signed, k, hash, claim)
    ensures Leads(vals, es + PrevoteInputs(signed, k, hash, claim), Prevoted(k, hash, claim), map[])
  {
    PrevotesPrepared(signed, k, hash, claim);
    PrevotesStored(k, hash, claim);
    var v := k.voting;
    var p := Pending(Prevote, v.h, v.r, FirstUpdate(k, hash, claim), MergedSigners(signed, v, Prevote, map[hash := claim]));
    var xs := PrevoteInputs(signed, k, hash, claim);
    Continue(vals, es, k, map[], xs[0], k, map[0 := p]);
    assert map[0 := p] - {0} == map[];
    Continue(vals, es + [xs[0]], k, map[0 := p], xs[1], Prevoted(k, hash, claim), map[]);
    assert es + [xs[0]] + [xs[1]] == es + xs;
  }

  // ----- A precommit that is never decided -----

  /** A validator with little power beside one who decides alone. */
  const SMALL := Genesis(Some(8), 1, THREE, "", "")

  function OnePrevote(): set<Vote> {
    {Vote(Prevote, 7, 1, 0, "d")}
  }

  function PrevotedD(): K {
    Prevoted(EnteredAt(SMALL), "d", {0})
  }

  function Undecided(): seq<Move> {
    [Meanwhile(PrevoteInputs(OnePrevote(), EnteredAt(SMALL), "d", {0})), Deliver([])]
  }

  lemma EnteredFacts(g: Genesis)
    requires g.initialHeight == 1
    ensures
      var k := EnteredAt(g);
      && Enter(InitialK(1, g.vals), 1, 0, g.signer).Ok?
      && k.voting == InitialK(1, g.vals).voting && k.voting.version == 1 && Matches(k.voting, 1, 0) && k.voting.vals == g.vals
      && k.voting.headers == [] && k.voting.prevotes == EMPTY_BALLOT && k.voting.precommits == EMPTY_BALLOT
      && k.voting.summary == VoteSummary(Total(g.vals.powers), EMPTY_TALLY, EMPTY_TALLY)
      && k.nextRound == FreshView(1, 1, g.vals).(version := 1) && k.committing == ZERO_VIEW
      && k.sm.h == 1 && k.sm.r == 0 && k.sm.lastSent == 1 && k.sm.jumpAhead.None? && k.sm.delivered == [1]
  {
  }

  lemma EnterRuns(g: Genesis)
    requires g.initialHeight == 1
    ensures Leads(g.vals, [Input({}, SMEnter(1, 0, g.signer))], EnteredAt(g), map[])
  {
    Begin(g.vals);
    EnteredFacts(g);
    assert [] + [Input({}, SMEnter(1, 0, g.signer))] == [Input({}, SMEnter(1, 0, g.signer))];
    Continue(g.vals, [], InitialK(1, g.vals), map[], Input({}, SMEnter(1, 0, g.signer)), EnteredAt(g), map[]);
  }

  /** What leads on from the first entrance is a run from there. */
  lemma AfterEntrance(g: Genesis, fs: seq<Input>, k: K)
    requires g.initialHeight == 1 && Leads(g.vals, [Input({}, SMEnter(1, 0, g.signer))] + fs, k, map[])
    ensures Run(Mirror(EnteredAt(g), map[]), fs) == Ok(Mirror(k, map[]))
  {
    EnterRuns(g);
    RunAppend(Start(1, g.vals), [Input({}, SMEnter(1, 0, g.signer))], fs);
  }

  lemma PrevotedSends(k: K, hash: Hash, claim: set<nat>)
    requires Matches(k.voting, k.sm.h, k.sm.r) && k.voting.version == k.sm.lastSent && k.sm.jumpAhead.None?
    ensures Output(Prevoted(k, hash, claim).sm) == Send(Some(Prevoted(k, hash, claim).voting), None, k.voting.version + 1)
    ensures Prevoted(k, hash, claim).sm == k.sm.(outgoing := Prevoted(k, hash, claim).voting)
  {
  }

  lemma EntrantFacts(g: Genesis)
    ensures
      var l := Entrant(g);
      && l.mode.Live? && l.h == 1 && l.r == 0 && l.step.AwaitingProposal? && l.timer.Some? && !l.asked
      && l.view == Some(InitialK(1, g.vals).voting) && l.view.value.version == 1 && Matches(l.view.value, 1, 0)
      && l.lastDelivered == 1
  {
  }

  /** A delivery during which no round is entered. */
  lemma DeliversAlone(p: Pair, v: View, d: RoundSpec.Done)
    requires p.l.mode.Live? && Output(p.m.k.sm).Send? && Output(p.m.k.sm).vrv == Some(v) && Output(p.m.k.sm).jump.None?
    requires RoundSpec.ViewUpdate(p.l, Some(v), None, []) == RoundSpec.Ok(d) && d.rest == []
    ensures Possible(p, Deliver([])) && Next(p, Deliver([])) == Ok(Pair(p.m.(k := MarkSMSent(p.m.k)), d.l))
  {
    var m := p.m.(k := MarkSMSent(p.m.k));
    assert Serve(m, p.l.h, p.l.r + 1, []) == Ok(Served(m, []));
  }

  lemma SettledHandled(l: RoundSpec.Life, v: View)
    requires l.mode.Live? && l.step.AwaitingProposal? && l.timer.Some? && !l.asked && l.view.Some?
    requires Matches(v, l.h, l.r) && v.version > l.view.value.version && Decisions.PrevotesSettled(v)
    ensures
      var o := RoundSpec.ViewUpdate(l, Some(v), None, []);
      o.Ok? && o.value.rest == [] && Decisions.Unasked(o.value.l)
  {
    var l0 := l.(lastDelivered := v.version);
    assert RoundSpec.OnProposalView(l0, v, []).Ok?;
    Decisions.SettledUnasked(l0, v, []);
    Decisions.ViewEventUnasked(l, Some(v), None, []);
  }

  lemma PrevotedDSettled()
    ensures Decisions.PrevotesSettled(PrevotedD().voting)
    ensures Matches(PrevotedD().voting, 1, 0) && PrevotedD().voting.version == 2
  {
    ThreePowers();
    EnteredFacts(SMALL);
  }

  lemma RunsPrevotes()
    ensures Run(Mirror(EnteredAt(SMALL), map[]), PrevoteInputs(OnePrevote(), EnteredAt(SMALL), "d", {0})) == Ok(Mirror(PrevotedD(), map[]))
  {
    ThreePowers();
    EnterRuns(SMALL);
    EnteredFacts(SMALL);
    FirstPrevotes(THREE, [Input({}, SMEnter(1, 0, Some(8)))], EnteredAt(SMALL), OnePrevote(), "d", {0});
    AfterEntrance(SMALL, PrevoteInputs(OnePrevote(), EnteredAt(SMALL), "d", {0}), PrevotedD());
  }

  /** The prevote of a validator with a majority arrives while this one still awaits a proposal: from then on
    it awaits precommits, and never decides on its own in that round (`Decisions.NeverAsked`). */
  lemma LeftUndecided()
    ensures RunPair(SMALL, AtOnce(SMALL), Undecided()).Ok?
    ensures Decisions.Unasked(RunPair(SMALL, AtOnce(SMALL), Undecided()).value.l)
    ensures RoundSpec.Participating(RunPair(SMALL, AtOnce(SMALL), Undecided()).value.l)
  {
    PrevoteArrives();
    DeliversPrevote(PrevotedD());
    MoveOn(SMALL, AtOnce(SMALL), Undecided()[..1], Deliver([]));
    assert Undecided()[..1] + [Deliver([])] == Undecided();
  }

  lemma PrevoteArrives()
    ensures RunPair(SMALL, AtOnce(SMALL), Undecided()[..1]) == Ok(Pair(Mirror(PrevotedD(), map[]), Entrant(SMALL)))
    ensures Output(PrevotedD().sm) == Send(Some(PrevotedD().voting), None, 2)
    ensures Matches(PrevotedD().voting, 1, 0) && PrevotedD().voting.version == 2 && Decisions.PrevotesSettled(PrevotedD().voting)
  {
    ThreePowers();
    StartsAt(SMALL);
    RunsPrevotes();
    EnteredFacts(SMALL);
    PrevotedDSettled();
    PrevotedSends(EnteredAt(SMALL), "d", {0});
    assert Undecided()[..1][..0] == [];
  }

  lemma DeliversPrevote(k: K)
    requires Output(k.sm) == Send(Some(k.voting), None, 2)
    requires Matches(k.voting, 1, 0) && k.voting.version == 2 && Decisions.PrevotesSettled(k.voting)
    ensures
      var p := Pair(Mirror(k, map[]), Entrant(SMALL));
      && Possible(p, Deliver([])) && Next(p, Deliver([])).Ok?
      && Decisions.Unasked(Next(p, Deliver([])).value.l) && RoundSpec.Participating(Next(p, Deliver([])).value.l)
  {
    var p := Pair(Mirror(k, map[]), Entrant(SMALL));
    EntrantFacts(SMALL);
    SettledHandled(p.l, k.voting);
    DeliversAlone(p, k.voting, RoundSpec.ViewUpdate(p.l, Some(k.voting), None, []).value);
  }

  // ----- A view taken for stale -----

  const SOLO := Genesis(None, 1, ONE, "", "")

  const BLOCK_X := ProposedHeader(Header("x", 1, ONE, ONE, "", map[]), 0, "x")
  const BLOCK_Y := ProposedHeader(Header("y", 1, ONE, ONE, "", map[]), 0, "y")

  function NoisyVotes(): set<Vote> {
    {Vote(Prevote, 7, 1, 0, "x"), Vote(Precommit, 7, 1, 0, NIL_HASH), Vote(Precommit, 7, 1, 1, "c")}
  }

  /** Another header, with no precommits yet. */
  function ProposedToo(k: K, ph: ProposedHeader): K {
    Mark(k.(voting := k.voting.(headers := k.voting.headers + [ph])), VotingView)
  }

  lemma NextHeader(vals: ValSet, es: seq<Input>, k: K, signed: set<Vote>, h: nat, r: nat, ph: ProposedHeader)
    requires Leads(vals, es, k, map[]) && Awaits(k, h, r) && !HasSignature(k.voting.headers, ph.sig)
    requires ph.header.height == h > 0 && ph.round == r && ph.header.prevCommit == map[]
    ensures Leads(vals, es + [Input(signed, NewHeader(ph))], ProposedToo(k, ph), map[])
  {
    var k1 := ProposedToo(k, ph);
    assert Backfill(signed, k1.committing, map[]) == k1.committing.precommits.proofs;
    assert AddHeader(signed, k, ph) == Ok(k1);
    Continue(vals, es, k, map[], Input(signed, NewHeader(ph)), k1, map[]);
  }

  /** The first round, at a version, seen by a state machine that was sent the first version only. */
  predicate FirstRound(k: K, version: nat) {
    && Awaits(k, 1, 0) && k.voting.vals == ONE && k.voting.version == version && k.committing == ZERO_VIEW
    && k.nextRound == FreshView(1, 1, ONE).(version := 1)
    && k.sm.h == 1 && k.sm.r == 0 && k.sm.lastSent == 1 && k.sm.jumpAhead.None?
  }

  /** Two headers and a prevote in the first round. */
  function Noise(): seq<Input> {
    [Input(NoisyVotes(), NewHeader(BLOCK_X))] + [Input(NoisyVotes(), NewHeader(BLOCK_Y))]
    + ([Input(NoisyVotes(), Lookup(0, Prevote, 1, 0, [7], map["x" := {0}]))] + [Input(NoisyVotes(), Submit(0))])
  }

  function Noisy(k: K): K {
    Prevoted(ProposedToo(Proposed(k, BLOCK_X), BLOCK_Y), "x", {0})
  }

  lemma MakesNoise(es: seq<Input>, k: K)
    requires Leads(ONE, es, k, map[]) && FirstRound(k, 1) && k.voting.headers == [] && k.voting.prevotes == EMPTY_BALLOT
    ensures Leads(ONE, es + Noise(), Noisy(k), map[])
    ensures FirstRound(Noisy(k), 4)
  {
    OnePower();
    var k1 := Proposed(k, BLOCK_X);
    var k2 := ProposedToo(k1, BLOCK_Y);
    var signed := NoisyVotes();
    FirstHeader(ONE, es, k, signed, 1, 0, BLOCK_X);
    NextHeader(ONE, es + [Noise()[0]], k1, signed, 1, 0, BLOCK_Y);
    FirstPrevotes(ONE, es + [Noise()[0]] + [Noise()[1]], k2, signed, "x", {0});
    assert es + [Noise()[0]] + [Noise()[1]] + PrevoteInputs(signed, k2, "x", {0}) == es + Noise();
  }

  /** A nil majority in the first round, then a majority in the second for a block that is not there. */
  function BlindMajority(): seq<Input> {
    [Input(NoisyVotes(), Lookup(0, Precommit, 1, 0, [7], map[NIL_HASH := {0}]))] + [Input(NoisyVotes(), Submit(0))]
    + [Input(NoisyVotes(), Lookup(0, Precommit, 1, 1, [7], map["c" := {0}]))] + [Input(NoisyVotes(), Submit(0))]
  }

  function Nilled(k: K): K {
    AdvanceRound(Voted(k, NIL_HASH, {0}))
  }

  function Blinded(k: K): K {
    Voted(Nilled(k), "c", {0})
  }

  lemma NilledFacts(k: K, version: nat)
    requires FirstRound(k, version)
    ensures
      var k1 := Nilled(k);
      && Idles(k1, 1, 1) && k1.voting.version == 2 && k1.voting.prevotes == EMPTY_BALLOT && k1.committing == ZERO_VIEW
      && k1.sm == k.sm.(outgoing := k1.sm.outgoing)
      && Matches(k1.sm.outgoing, 1, 0) && k1.sm.outgoing.version == version + 1 && Entrances.NilMajority(k1.sm.outgoing)
  {
    OnePower();
  }

  lemma BlindedFacts(k: K)
    requires Idles(k, 1, 1) && k.sm.h == 1 && k.sm.r == 0
    ensures
      var k1 := Voted(k, "c", {0});
      && CheckVotingShift(k1) == Ok(k1) && k1.sm == k.sm && k1.committing == k.committing
      && k1.voting.version == k.voting.version + 1 && Matches(k1.voting, 1, 1) && k1.voting.vals == ONE
      && k1.voting.headers == [] && RoundInv.LacksHeader(k1.voting)
      && k1.voting.summary.available == 1 && k1.voting.summary.precommits == Tally(1, map["c" := 1], "c")
      && k1.voting.precommits.proofs == map["c" := Proof([7], {0})]
  {
    OnePower();
  }

  lemma GoesBlind(es: seq<Input>, k: K, version: nat)
    requires Leads(ONE, es, k, map[]) && FirstRound(k, version)
    ensures Leads(ONE, es + BlindMajority(), Blinded(k), map[])
  {
    OnePower();
    var xs, signed := BlindMajority(), NoisyVotes();
    assert Claimed(signed, k, NIL_HASH, {0});
    FirstNil(ONE, es, k, signed, 1, 0, {0});
    NilledFacts(k, version);
    BlindedFacts(Nilled(k));
    FirstVotes(ONE, es + [xs[0]] + [xs[1]], Nilled(k), signed, 1, 1, "c", {0});
    assert es + [xs[0]] + [xs[1]] + [xs[2]] + [xs[3]] == es + xs;
  }

  // ----- What the state machine makes of it -----

  lemma BlindBegin(l: RoundSpec.Life, c: View, resp: seq<RoundSpec.Response>)
    requires RoundInv.LacksHeader(c)
    ensures
      var o := RoundSpec.BeginRoundLive(l, c, resp);
      && o.Ok? && o.value.rest == resp && o.value.l.mode == l.mode && o.value.l.view == l.view
      && o.value.l.h == l.h && o.value.l.r == l.r && o.value.l.entered == l.entered && o.value.l.step.CommitWait?
  {
    Entrances.CommitStays(l, c);
    assert RoundSpec.BeginRoundLive(l, c, resp) == RoundSpec.Ok(RoundSpec.Done(RoundSpec.BeginCommit(l, c).0, false, resp));
  }

  lemma BlindAdvance(l: RoundSpec.Life, c: View)
    requires RoundInv.LacksHeader(c) && Matches(c, l.h, l.r + 1)
    ensures
      var o := RoundSpec.AdvanceRound(l, [RoundSpec.Entered(c)]);
      && o.Ok? && o.value.rest == [] && o.value.l.mode == l.mode && o.value.l.view == l.view
      && o.value.l.h == l.h && o.value.l.r == l.r + 1 && o.value.l.entered == c && o.value.l.step.CommitWait?
  {
    var resp := [RoundSpec.Entered(c)];
    var l1 := RoundSpec.ResetRound(l, l.h, l.r + 1);
    assert resp[1..] == [] && c.(h := l1.h, r := l1.r) == c;
    assert RoundSpec.AdvanceRound(l, resp) == RoundSpec.Advance(l1, resp) == RoundSpec.EnterWith(l1, c, []);
    BlindBegin(l1.(actionsCh := RoundSpec.Participating(l1), sent := 0, lastDelivered := c.version, entered := c), c, []);
  }

  lemma NilHandled(l: RoundSpec.Life, o: View, resp: seq<RoundSpec.Response>)
    requires l.step.AwaitingProposal? && l.timer.Some? && Entrances.NilMajority(o)
    ensures RoundSpec.OnView(l, o, resp) == RoundSpec.AdvanceRound(l.(timer := None), resp)
  {
  }

  /** A nil majority ends the round, and the next is entered without the committed header: the view of the
    round that was left is what the state machine holds from then on. */
  lemma HoldsOld(l: RoundSpec.Life, o: View, c: View)
    requires l.mode.Live? && l.step.AwaitingProposal? && l.timer.Some? && l.view.Some? && Matches(l.view.value, l.h, l.r)
    requires Matches(o, l.h, l.r) && o.version > l.view.value.version && Entrances.NilMajority(o)
    requires RoundInv.LacksHeader(c) && Matches(c, l.h, l.r + 1)
    ensures
      var u := RoundSpec.ViewUpdate(l, Some(o), None, [RoundSpec.Entered(c)]);
      && u.Ok? && u.value.rest == [] && u.value.l.mode.Live?
      && u.value.l.h == l.h && u.value.l.r == l.r + 1 && u.value.l.view == Some(o) && u.value.l.entered == c
  {
    var resp := [RoundSpec.Entered(c)];
    var l0 := l.(lastDelivered := o.version);
    NilHandled(l0, o, resp);
    BlindAdvance(l0.(timer := None), c);
    var d := RoundSpec.OnView(l0, o, resp).value;
    Entrances.KeepViewStays(d.l, o);
  }

  lemma StaleHandled(l: RoundSpec.Life, v: View)
    requires l.view.Some? && Matches(v, l.h, l.r) && v.version <= l.view.value.version
    ensures RoundSpec.ViewUpdate(l, Some(v), None, []) == RoundSpec.Ok(RoundSpec.Done(l.(mode := RoundSpec.Terminated), true, []))
  {
  }

  /** The missing header arrives, and the block is committed at once. */
  function Revealed(k: K, ph: ProposedHeader): K {
    var k1 := ProposedToo(k, ph);
    ShiftToCommitting(k1.(log := k1.log + [CommitRecord(k1.voting, ph.header.hash)]), ph.header)
  }

  lemma Reveals(m: Mirror, signed: set<Vote>)
    requires Matches(m.k.voting, 1, 1) && m.k.voting.headers == []
    requires m.k.voting.summary.available == 1 && m.k.voting.summary.precommits == Tally(1, map["c" := 1], "c")
    requires m.k.voting.precommits.proofs == map["c" := Proof([7], {0})]
    ensures Step(signed, m, NewHeader(BLOCK_C)) == Ok(m.(k := Revealed(m.k, BLOCK_C)))
  {
    var k1 := ProposedToo(m.k, BLOCK_C);
    OnePower();
    assert k1.voting.headers == [BLOCK_C];
    assert Backfill(signed, k1.committing, map[]) == k1.committing.precommits.proofs;
    assert FindHeader(k1.voting.headers, "c") == Some(BLOCK_C.header);
    assert CheckVotingShift(k1) == Ok(Revealed(m.k, BLOCK_C));
  }

  /** The committing view is two versions on from the voting view that was entered. */
  lemma RevealedSends(k: K)
    requires Matches(k.voting, k.sm.h, k.sm.r) && k.sm.h > 0 && k.voting.version == k.sm.lastSent && k.sm.jumpAhead.None?
    ensures
      var k1 := Revealed(k, BLOCK_C);
      && Matches(k1.committing, k.sm.h, k.sm.r) && k1.committing.version == k.voting.version + 2
      && Output(k1.sm) == Send(Some(k1.committing), None, k.voting.version + 2)
  {
  }

  lemma EntersBlinded(k: K)
    requires Matches(k.voting, 1, 1)
    ensures
      var o := Enter(k, 1, 1, None);
      && Answer(k, 1, 1, ANY_HEADER) == RoundSpec.Entered(k.voting)
      && o == Ok(k.(sm := k.sm.(h := 1, r := 1, key := None, lastSent := k.voting.version, jumpAhead := None,
                                heightCommitted := false, delivered := [k.voting.version])))
  {
  }

  /** A delivery during which one round is entered, at once. */
  lemma DeliversEntering(p: Pair, v: View, m: Mirror, c: View, key: Option<Key>, d: RoundSpec.Done)
    requires p.l.mode.Live? && Output(p.m.k.sm).Send? && Output(p.m.k.sm).vrv == Some(v) && Output(p.m.k.sm).jump.None?
    requires Serve(p.m.(k := MarkSMSent(p.m.k)), p.l.h, p.l.r + 1, [Serving([], key, ANY_HEADER)]) == Ok(Served(m, [RoundSpec.Entered(c)]))
    requires RoundSpec.ViewUpdate(p.l, Some(v), None, [RoundSpec.Entered(c)]) == RoundSpec.Ok(d) && d.rest == []
    ensures
      var x := Deliver([Serving([], key, ANY_HEADER)]);
      Possible(p, x) && Next(p, x) == Ok(Pair(m, d.l))
  {
    assert RoundSpec.Handle(p.l, Delivered(p.m), [RoundSpec.Entered(c)]) == RoundSpec.Ok(d.(ok := true));
  }

  // ----- The whole run -----

  const REVEAL := Input({}, NewHeader(BLOCK_C))

  /** The state machine enters the first round. Two headers, a prevote and a nil precommit take that round's
    view to version five; in the second round a block without header gets its majority, at version three.
    The state machine takes the first round's view and enters the second round. The header arrives, and the
    mirror commits: its committing view of that round is at version five. */
  function StaleMoves(): seq<Move> {
    UntilBlind() + [Meanwhile([REVEAL])] + [Deliver([])]
  }

  function UntilBlind(): seq<Move> {
    [Meanwhile(Noise() + BlindMajority())] + [Deliver(AtOnce(SOLO))]
  }

  /** The mirror before the first delivery. */
  predicate BeforeFirst(k: K) {
    && k.sm.h == 1 && k.sm.r == 0 && k.sm.lastSent == 1 && k.sm.jumpAhead.None?
    && Matches(k.sm.outgoing, 1, 0) && k.sm.outgoing.version == 5 && Entrances.NilMajority(k.sm.outgoing)
    && BlindAt(k.voting)
  }

  predicate BlindAt(v: View) {
    && Matches(v, 1, 1) && v.version == 3 && v.headers == [] && RoundInv.LacksHeader(v)
    && v.summary.available == 1 && v.summary.precommits == Tally(1, map["c" := 1], "c")
    && v.precommits.proofs == map["c" := Proof([7], {0})]
  }

  /** ... and after it. */
  predicate AfterFirst(k: K) {
    k.sm.h == 1 && k.sm.r == 1 && k.sm.lastSent == 3 && k.sm.jumpAhead.None? && BlindAt(k.voting)
  }

  lemma BlindFrom(es: seq<Input>, k: K)
    requires Leads(ONE, es, k, map[]) && FirstRound(k, 4)
    ensures Leads(ONE, es + BlindMajority(), Blinded(k), map[]) && BeforeFirst(Blinded(k))
  {
    GoesBlind(es, k, 4);
    NilledFacts(k, 4);
    BlindedFacts(Nilled(k));
  }

  lemma NoisyStart()
    ensures Leads(ONE, [Input({}, SMEnter(1, 0, None))] + Noise(), Noisy(EnteredAt(SOLO)), map[])
    ensures FirstRound(Noisy(EnteredAt(SOLO)), 4)
  {
    OnePower();
    EnterRuns(SOLO);
    EnteredFacts(SOLO);
    MakesNoise([Input({}, SMEnter(1, 0, None))], EnteredAt(SOLO));
  }

  lemma ReachesBlind()
    ensures
      var k := Blinded(Noisy(EnteredAt(SOLO)));
      && Run(Mirror(EnteredAt(SOLO), map[]), Noise() + BlindMajority()) == Ok(Mirror(k, map[])) && BeforeFirst(k)
  {
    var first := [Input({}, SMEnter(1, 0, None))];
    var k := Noisy(EnteredAt(SOLO));
    NoisyStart();
    BlindFrom(first + Noise(), k);
    assert first + Noise() + BlindMajority() == first + (Noise() + BlindMajority());
    AfterEntrance(SOLO, Noise() + BlindMajority(), Blinded(k));
  }

  lemma FirstDelivery(k: K, l: RoundSpec.Life)
    requires BeforeFirst(k) && l == Entrant(SOLO)
    ensures
      var p := Pair(Mirror(k, map[]), l);
      && Possible(p, Deliver(AtOnce(SOLO))) && Next(p, Deliver(AtOnce(SOLO))).Ok?
      && var p' := Next(p, Deliver(AtOnce(SOLO))).value;
      && AfterFirst(p'.m.k) && p'.m.pending == map[]
      && p'.l.mode.Live? && p'.l.h == 1 && p'.l.r == 1 && p'.l.view == Some(k.sm.outgoing) && p'.l.entered == k.voting
  {
    EntrantFacts(SOLO);
    BothSent(k.sm);
    HoldsOld(l, k.sm.outgoing, k.voting);
    var k1 := MarkSMSent(k);
    EntersBlinded(k1);
    var u := RoundSpec.ViewUpdate(l, Some(k.sm.outgoing), None, [RoundSpec.Entered(k.voting)]).value;
    ServeOne(Mirror(k1, map[]), 1, 1, AtOnce(SOLO)[0]);
    DeliversEntering(Pair(Mirror(k, map[]), l), k.sm.outgoing, Mirror(Enter(k1, 1, 1, None).value, map[]), k.voting, None, u);
  }

  lemma Reveal(k: K)
    requires AfterFirst(k)
    ensures
      var k1 := Revealed(k, BLOCK_C);
      && Run(Mirror(k, map[]), [REVEAL]) == Ok(Mirror(k1, map[])) && AllApart([REVEAL])
      && Output(k1.sm) == Send(Some(k1.committing), None, 5) && Matches(k1.committing, 1, 1) && k1.committing.version == 5
  {
    Reveals(Mirror(k, map[]), {});
    RevealedSends(k);
    assert [REVEAL][..0] == [];
    assert Run(Mirror(k, map[]), []) == Ok(Mirror(k, map[]));
  }

  lemma SecondDelivery(p: Pair)
    requires p.l.mode.Live? && p.l.h == 1 && p.l.r == 1 && p.l.view.Some? && p.l.view.value.version == 5
    requires
      var out := Output(p.m.k.sm);
      out.Send? && out.jump.None? && out.vrv.Some? && Matches(out.vrv.value, 1, 1) && out.vrv.value.version == 5
    ensures Possible(p, Deliver([])) && Next(p, Deliver([])).Ok? && Next(p, Deliver([])).value.l.mode.Terminated?
  {
    var v := Output(p.m.k.sm).vrv.value;
    StaleHandled(p.l, v);
    DeliversAlone(p, v, RoundSpec.Done(p.l.(mode := RoundSpec.Terminated), true, []));
  }

  lemma MoveOn(g: Genesis, ss: seq<Serving>, xs: seq<Move>, x: Move)
    requires RunPair(g, ss, xs).Ok? && Possible(RunPair(g, ss, xs).value, x)
    ensures RunPair(g, ss, xs + [x]) == Next(RunPair(g, ss, xs).value, x)
  {
    assert (xs + [x])[..|xs|] == xs;
  }

  lemma AllNoisyApart()
    ensures AllApart(Noise() + BlindMajority())
  {
  }

  lemma BlindStart()
    ensures
      var k := Blinded(Noisy(EnteredAt(SOLO)));
      RunPair(SOLO, AtOnce(SOLO), [Meanwhile(Noise() + BlindMajority())]) == Ok(Pair(Mirror(k, map[]), Entrant(SOLO))) && BeforeFirst(k)
  {
    OnePower();
    StartsAt(SOLO);
    ReachesBlind();
    AllNoisyApart();
    var x := Meanwhile(Noise() + BlindMajority());
    assert RunPair(SOLO, AtOnce(SOLO), []) == Ok(Pair(Mirror(EnteredAt(SOLO), map[]), Entrant(SOLO)));
    MoveOn(SOLO, AtOnce(SOLO), [], x);
    assert [] + [x] == [x];
  }

  /** The state machine is in the second round, which it entered without the committed header. */
  predicate Blind(p: Pair) {
    && AfterFirst(p.m.k) && p.m.pending == map[]
    && p.l.mode.Live? && p.l.h == 1 && p.l.r == 1 && p.l.view.Some? && p.l.view.value.version == 5
    && RoundInv.LacksHeader(p.l.entered)
  }

  lemma BlindAfter(k: K)
    requires RunPair(SOLO, AtOnce(SOLO), [Meanwhile(Noise() + BlindMajority())]) == Ok(Pair(Mirror(k, map[]), Entrant(SOLO)))
    requires BeforeFirst(k)
    ensures RunPair(SOLO, AtOnce(SOLO), UntilBlind()).Ok? && Blind(RunPair(SOLO, AtOnce(SOLO), UntilBlind()).value)
  {
    FirstDelivery(k, Entrant(SOLO));
    MoveOn(SOLO, AtOnce(SOLO), [Meanwhile(Noise() + BlindMajority())], Deliver(AtOnce(SOLO)));
  }

  lemma StaleAfter(ss: seq<Serving>, xs: seq<Move>)
    requires RunPair(SOLO, ss, xs).Ok? && Blind(RunPair(SOLO, ss, xs).value)
    ensures RunPair(SOLO, ss, xs + [Meanwhile([REVEAL])] + [Deliver([])]).Ok?
    ensures RunPair(SOLO, ss, xs + [Meanwhile([REVEAL])] + [Deliver([])]).value.l.mode.Terminated?
  {
    var p := RunPair(SOLO, ss, xs).value;
    Reveal(p.m.k);
    MoveOn(SOLO, ss, xs, Meanwhile([REVEAL]));
    SecondDelivery(Pair(Mirror(Revealed(p.m.k, BLOCK_C), map[]), p.l));
    MoveOn(SOLO, ss, xs + [Meanwhile([REVEAL])], Deliver([]));
  }

  /** In a run of mirror and state machine from genesis, the state machine takes a new view for stale and
    terminates. */
  lemma TerminationHappens()
    ensures RunPair(SOLO, AtOnce(SOLO), StaleMoves()).Ok?
    ensures RunPair(SOLO, AtOnce(SOLO), StaleMoves()).value.l.mode.Terminated?
  {
    BlindStart();
    BlindAfter(Blinded(Noisy(EnteredAt(SOLO))));
    StaleAfter(AtOnce(SOLO), UntilBlind());
  }
}
