/** What votes, headers and lookups do to the views, told by what is in them. */
module Contents {
  import opened Options
  import opened Quorum
  import opened Votes
  import opened Views
  import opened KernelSpec
  import opened KernelInv
  import opened MirrorSystem
  import opened MirrorRuns
  import opened FirstStep
  import opened Thresholds
  import opened Claims

  // ----- Lookups -----

  /** A round is found exactly when one of the three views is of it; else the answer tells where it lies. */
  lemma FindMeaning(k: K, h: nat, r: nat)
    requires Inv(k) && h > 0
    ensures
      var f := FindView(k, h, r);
      && (f == Found(VotingView) <==> Matches(k.voting, h, r))
      && (f == Found(NextRoundView) <==> Matches(k.nextRound, h, r))
      && (f == Found(CommittingView) <==> Matches(k.committing, h, r))
      && (f.Orphaned? <==> h == k.voting.h && r < k.voting.r)
      && (f.LaterRound? <==> h == k.voting.h && r > k.nextRound.r)
      && (f.BeforeCommitting? <==> HRLess(h, r, k.committing.h, k.committing.r))
      && (f.Future? <==> h > k.voting.h)
      && (f.Unhandled? <==> h < k.voting.h && HRLess(k.committing.h, k.committing.r, h, r))
  {
  }

  // ----- Vote additions -----

  /** Block by block: an update whose version still holds replaces the proof and raises the version by one,
    everything else stays. */
  lemma ApplyExactly(b: Ballot, updates: map<Hash, VoteUpdate>, hash: Hash)
    ensures
      var c := ApplyUpdates(b, updates);
      var was := if hash in b.vers then b.vers[hash] else 0;
      if hash in updates && updates[hash].prevVersion == was then
        hash in c.proofs && c.proofs[hash] == updates[hash].proof && hash in c.vers && c.vers[hash] == was + 1
      else
        && (hash in c.proofs <==> hash in b.proofs) && (hash in b.proofs ==> c.proofs[hash] == b.proofs[hash])
        && (hash in c.vers <==> hash in b.vers) && (hash in b.vers ==> c.vers[hash] == b.vers[hash])
  {
  }

  /** When no update's version holds, nothing changes, versions included. */
  lemma NothingStored(k: K, id: ViewId, kind: Kind, updates: map<Hash, VoteUpdate>)
    requires
      var b := BallotOf(GetView(k, id), kind);
      forall hash :: hash in updates ==> updates[hash].prevVersion != (if hash in b.vers then b.vers[hash] else 0)
    ensures StoreVotes(k, id, kind, updates) == Ok(k)
  {
  }

  /** The answer: accepted exactly when every update's version still holds in a view that is found. */
  lemma AnswerMeaning(k: K, kind: Kind, h: nat, r: nat, updates: map<Hash, VoteUpdate>)
    requires Inv(k) && h > 0 && AddVotes(k, kind, h, r, updates).Ok?
    ensures
      var res := AddVotes(k, kind, h, r, updates).value.1;
      var known := Matches(k.voting, h, r) || Matches(k.nextRound, h, r) || Matches(k.committing, h, r);
      && (known ==>
            && var b := BallotOf(if Matches(k.voting, h, r) then k.voting else if Matches(k.nextRound, h, r) then k.nextRound else k.committing, kind);
            && (res.Accepted? <==> forall hash :: hash in updates ==> updates[hash].prevVersion == (if hash in b.vers then b.vers[hash] else 0))
            && !res.OutOfDate?)
      && (!known ==> res.OutOfDate? && AddVotes(k, kind, h, r, updates).value.0 == k)
  {
    FindMeaning(k, h, r);
  }

  /** A gap in the round numbers, in which no view can be. */
  predicate Gap(k: K, h: nat, r: nat) {
    h < k.voting.h && HRLess(k.committing.h, k.committing.r, h, r)
  }

  /** For a round without a view: votes for one that is over are out of date, for any other a panic; headers,
    lookups and local votes are dropped, but a panic for a round in a gap. */
  lemma NotFoundMeaning(signed: set<Vote>, m: Mirror, kind: Kind, h: nat, r: nat, updates: map<Hash, VoteUpdate>, e: Event, hash: Hash, i: nat)
    requires Inv(m.k) && h > 0
    requires !Matches(m.k.voting, h, r) && !Matches(m.k.nextRound, h, r) && !Matches(m.k.committing, h, r)
    ensures
      var over := HRLess(h, r, m.k.committing.h, m.k.committing.r) || (h == m.k.voting.h && r < m.k.voting.r);
      AddVotes(m.k, kind, h, r, updates) == if over then Ok((m.k, OutOfDate)) else Stuck
    ensures e.Lookup? && e.h == h && e.r == r ==> Step(signed, m, e) == if Gap(m.k, h, r) then Stuck else Ok(m)
    ensures e.NewHeader? && e.ph.header.height == h && e.ph.round == r ==>
      Step(signed, m, e) == if Gap(m.k, h, r) then Stuck else Ok(m)
    ensures m.k.sm.h == h && m.k.sm.r == r ==> LocalVote(signed, m.k, kind, hash, i) == if Gap(m.k, h, r) then Stuck else Ok(m.k)
  {
    FindMeaning(m.k, h, r);
    assert m.(k := m.k) == m;
  }

  /** A local vote for the next round is dropped. */
  lemma NextVoteDropped(signed: set<Vote>, k: K, kind: Kind, hash: Hash, i: nat)
    requires Inv(k) && Matches(k.nextRound, k.sm.h, k.sm.r)
    ensures LocalVote(signed, k, kind, hash, i) == Ok(k)
  {
    assert FindView(k, k.sm.h, k.sm.r) == Found(NextRoundView);
  }

  /** Additions that look at no threshold, or reach none, touch one ballot only. */
  lemma PrevotesTouchOnly(k: K, updates: map<Hash, VoteUpdate>)
    requires Inv(k) && AddVotes(k, Prevote, k.voting.h, k.voting.r, updates).Ok?
    ensures
      var k' := AddVotes(k, Prevote, k.voting.h, k.voting.r, updates).value.0;
      && SameVotes(k'.voting, k.voting.(prevotes := ApplyUpdates(k.voting.prevotes, updates)))
      && k' == k.(voting := k'.voting, gossipV := k'.gossipV, sm := k.sm.(outgoing := k'.sm.outgoing))
  {
    StoredInVoting(k, Prevote, updates);
    VotingPrevotesStored(k, updates);
  }

  lemma VotingPrevotesStored(k: K, updates: map<Hash, VoteUpdate>)
    requires Inv(k) && AddVotes(k, Prevote, k.voting.h, k.voting.r, updates).Ok?
    requires StoreVotes(k, VotingView, Prevote, updates).Ok?
    ensures AddVotes(k, Prevote, k.voting.h, k.voting.r, updates).value.0 == StoreVotes(k, VotingView, Prevote, updates).value
  {
    assert FindView(k, k.voting.h, k.voting.r) == Found(VotingView);
  }

  lemma CommittingTouched(k: K, w: View)
    ensures
      var k1 := Touch(k, CommittingView, w);
      && k1 == k.(committing := Bump(w), gossipC := k1.gossipC, sm := k1.sm)
      && k1.sm.heightCommitted == k.sm.heightCommitted && k1.sm.h == k.sm.h && k1.sm.r == k.sm.r
  {
  }

  lemma CommittingStored(k: K, kind: Kind, updates: map<Hash, VoteUpdate>)
    requires Inv(k) && k.committing.version > 0
    ensures StoreVotes(k, CommittingView, kind, updates).Ok?
    ensures
      var k1 := StoreVotes(k, CommittingView, kind, updates).value;
      && SameVotes(k1.committing, With(k.committing, kind, updates))
      && k1 == k.(committing := k1.committing, gossipC := k1.gossipC, sm := k1.sm)
  {
    CommittingTouched(k, Resummarize(With(k.committing, kind, updates), kind));
    ResummarizedVotes(k.committing, kind, updates);
    if !AnyApplies(BallotOf(k.committing, kind), updates) { NothingApplied(BallotOf(k.committing, kind), updates); }
  }

  /** Votes of the committing round are stored there and move nothing. */
  lemma CommittingVotesStored(k: K, kind: Kind, updates: map<Hash, VoteUpdate>)
    requires Inv(k) && k.committing.version > 0
    ensures AddVotes(k, kind, k.committing.h, k.committing.r, updates).Ok?
    ensures
      var k' := AddVotes(k, kind, k.committing.h, k.committing.r, updates).value.0;
      && SameVotes(k'.committing, With(k.committing, kind, updates))
      && k' == k.(committing := k'.committing, gossipC := k'.gossipC, sm := k'.sm)
  {
    CommittingStored(k, kind, updates);
    CommittingAdds(k, kind, updates);
  }

  lemma CommittingAdds(k: K, kind: Kind, updates: map<Hash, VoteUpdate>)
    requires Inv(k) && k.committing.version > 0 && StoreVotes(k, CommittingView, kind, updates).Ok?
    ensures
      var o := AddVotes(k, kind, k.committing.h, k.committing.r, updates);
      o.Ok? && o.value.0 == StoreVotes(k, CommittingView, kind, updates).value
  {
    assert FindView(k, k.committing.h, k.committing.r) == Found(CommittingView);
  }

  // ----- Headers -----

  /** The precommits of `w` are those of `v` and the carried ones that verify. */
  ghost predicate Backfilled(signed: set<Vote>, v: View, w: View, carried: map<Hash, set<nat>>) {
    && w == v.(precommits := v.precommits.(proofs := w.precommits.proofs), version := w.version)
    && w.precommits.proofs.Keys == v.precommits.proofs.Keys
    && forall hash :: hash in v.precommits.proofs ==> ProofBackfilled(signed, v, w.precommits.proofs[hash], carried, hash)
  }

  ghost predicate ProofBackfilled(signed: set<Vote>, v: View, q: Proof, carried: map<Hash, set<nat>>, hash: Hash)
    requires hash in v.precommits.proofs
  {
    var p := v.precommits.proofs[hash];
    && q.keys == p.keys
    && forall i :: i in q.bits <==>
         i in p.bits || (hash in carried && i in carried[hash] && i < |p.keys| && Vote(Precommit, p.keys[i], v.h, v.r, hash) in signed)
  }

  lemma BackfillExactly(signed: set<Vote>, k: K, carried: map<Hash, set<nat>>)
    ensures BackfillCommitting(signed, k, carried).Ok? <==> carried.Keys <= k.committing.precommits.proofs.Keys
    ensures BackfillCommitting(signed, k, carried).Ok? ==>
      && var k' := BackfillCommitting(signed, k, carried).value;
      && Backfilled(signed, k.committing, k'.committing, carried)
      && k' == k.(committing := k'.committing, gossipC := k'.gossipC, sm := k'.sm)
      && (k'.committing.precommits == k.committing.precommits ==> k' == k)
  {
    if carried.Keys <= k.committing.precommits.proofs.Keys {
      var v := k.committing;
      var proofs := Backfill(signed, v, carried);
      CommittingTouched(k, v.(precommits := v.precommits.(proofs := proofs)));
      assert proofs.Keys == v.precommits.proofs.Keys;
      forall hash | hash in v.precommits.proofs ensures ProofBackfilled(signed, v, proofs[hash], carried, hash) {
      }
    }
  }

  predicate SigKnown(v: View, ph: ProposedHeader) {
    exists i :: 0 <= i < |v.headers| && v.headers[i].sig == ph.sig
  }

  /** The header is in the voting view, its carried precommits in the committing one, and nothing else
    happened yet. */
  ghost predicate HeaderIn(signed: set<Vote>, k: K, k2: K, ph: ProposedHeader) {
    && HeaderAdded(k.voting, k2.voting, ph) && k2.nextRound == k.nextRound
    && Backfilled(signed, k.committing, k2.committing, ph.header.prevCommit)
  }

  lemma VotingHeaderIn(signed: set<Vote>, k: K, ph: ProposedHeader)
    requires Inv(k)
    ensures
      var k1 := Touch(k, VotingView, k.voting.(headers := k.voting.headers + [ph]));
      && k1.committing == k.committing
      && (BackfillCommitting(signed, k1, ph.header.prevCommit).Ok? ==>
            HeaderIn(signed, k, BackfillCommitting(signed, k1, ph.header.prevCommit).value, ph)
            && Inv(BackfillCommitting(signed, k1, ph.header.prevCommit).value))
  {
    HeaderTouched(k, VotingView, ph);
    var k1 := Touch(k, VotingView, k.voting.(headers := k.voting.headers + [ph]));
    BackfillExactly(signed, k1, ph.header.prevCommit);
    if BackfillCommitting(signed, k1, ph.header.prevCommit).Ok? { BackfillKeeps(signed, k1, ph.header.prevCommit); }
  }

  /** A header for the voting round. */
  lemma VotingHeader(signed: set<Vote>, k: K, ph: ProposedHeader)
    requires Inv(k) && ph.header.height > 0 && Matches(k.voting, ph.header.height, ph.round) && Total(k.voting.vals.powers) > 0
    ensures SigKnown(k.voting, ph) ==> AddHeader(signed, k, ph) == Ok(k)
    ensures !SigKnown(k.voting, ph) ==>
      (AddHeader(signed, k, ph).Ok? <==> ph.header.prevCommit.Keys <= k.committing.precommits.proofs.Keys)
    ensures !SigKnown(k.voting, ph) && AddHeader(signed, k, ph).Ok? ==>
      exists k2 ::
        && HeaderIn(signed, k, k2, ph)
        && var k' := AddHeader(signed, k, ph).value;
        if ph.header.hash in k.voting.precommits.proofs && Commits(k2.voting) then CommittedTo(k2, k', Ahead(k2.voting))
        else if ph.header.hash in k.voting.precommits.proofs && GivesUp(k2.voting) then LeftFor(k2, k')
        else k' == k2
  {
    var k1 := Touch(k, VotingView, k.voting.(headers := k.voting.headers + [ph]));
    if !SigKnown(k.voting, ph) {
      VotingHeaderIn(signed, k, ph);
      BackfillExactly(signed, k1, ph.header.prevCommit);
      VotingHeaderAdds(signed, k, ph);
      if BackfillCommitting(signed, k1, ph.header.prevCommit).Ok? {
        var k2 := BackfillCommitting(signed, k1, ph.header.prevCommit).value;
        VotingCheckMeaning(k2);
        assert HeaderIn(signed, k, k2, ph);
      }
    }
  }

  lemma VotingHeaderAdds(signed: set<Vote>, k: K, ph: ProposedHeader)
    requires Matches(k.voting, ph.header.height, ph.round) && !SigKnown(k.voting, ph)
    ensures
      var k1 := Touch(k, VotingView, k.voting.(headers := k.voting.headers + [ph]));
      AddHeader(signed, k, ph) == match BackfillCommitting(signed, k1, ph.header.prevCommit)
        case Stuck => Stuck
        case Ok(k2) => if ph.header.hash in k2.voting.precommits.proofs then CheckVotingShift(k2) else Ok(k2)
  {
    assert !HasSignature(k.voting.headers, ph.sig);
  }

  /** A header for the next round, or for the committing one, is added and causes nothing else; carried
    precommits come with the former only. */
  lemma OtherHeader(signed: set<Vote>, k: K, ph: ProposedHeader)
    requires Inv(k) && ph.header.height > 0 && AddHeader(signed, k, ph).Ok?
    ensures Matches(k.nextRound, ph.header.height, ph.round) ==>
      && var k' := AddHeader(signed, k, ph).value;
      if SigKnown(k.nextRound, ph) then k' == k
      else
        && HeaderAdded(k.nextRound, k'.nextRound, ph) && k'.voting == k.voting
        && Backfilled(signed, k.committing, k'.committing, ph.header.prevCommit)
    ensures Matches(k.committing, ph.header.height, ph.round) ==>
      && var k' := AddHeader(signed, k, ph).value;
      if SigKnown(k.committing, ph) then k' == k
      else HeaderAdded(k.committing, k'.committing, ph) && k'.voting == k.voting && k'.nextRound == k.nextRound
    ensures
      (!Matches(k.voting, ph.header.height, ph.round) && !Matches(k.nextRound, ph.header.height, ph.round)
        && !Matches(k.committing, ph.header.height, ph.round))
      ==> AddHeader(signed, k, ph).value == k
  {
    FindMeaning(k, ph.header.height, ph.round);
    if Matches(k.nextRound, ph.header.height, ph.round) && !SigKnown(k.nextRound, ph) {
      assert !HasSignature(k.nextRound.headers, ph.sig);
      HeaderTouched(k, NextRoundView, ph);
      BackfillExactly(signed, Touch(k, NextRoundView, k.nextRound.(headers := k.nextRound.headers + [ph])), ph.header.prevCommit);
    } else if Matches(k.committing, ph.header.height, ph.round) && !SigKnown(k.committing, ph) {
      assert !HasSignature(k.committing.headers, ph.sig);
      HeaderTouched(k, CommittingView, ph);
    }
  }

  // ----- The local validator's votes -----

  /** The update with which a vote of validator `i` is added to a ballot, over `keys` if it is the first. */
  function OneMore(b: Ballot, keys: seq<Key>, hash: Hash, i: nat): map<Hash, VoteUpdate> {
    var held := if hash in b.proofs then b.proofs[hash] else Proof(keys, {});
    map[hash := VoteUpdate(Proof(held.keys, held.bits + {i}), if hash in b.vers then b.vers[hash] else 0)]
  }

  /** A vote of the local validator in the voting round is an addition like any other, accepted at once; one
    that does not verify, or is not by the announced key, is dropped. */
  lemma LocalVoteAdded(signed: set<Vote>, k: K, kind: Kind, hash: Hash, i: nat)
    requires Inv(k) && Matches(k.voting, k.sm.h, k.sm.r) && HeldOver(k.voting, kind, hash)
    ensures
      var v := k.voting;
      var good := i < |v.vals.keys| && k.sm.key == Some(v.vals.keys[i]) && Vote(kind, v.vals.keys[i], v.h, v.r, hash) in signed;
      var u := OneMore(BallotOf(v, kind), v.vals.keys, hash, i);
      && (good && AddVotes(k, kind, v.h, v.r, u).Ok? ==>
            LocalVote(signed, k, kind, hash, i) == Ok(AddVotes(k, kind, v.h, v.r, u).value.0)
            && AddVotes(k, kind, v.h, v.r, u).value.1 == Accepted)
      && (!good ==> LocalVote(signed, k, kind, hash, i) == Ok(k))
  {
    var v := k.voting;
    var b := BallotOf(v, kind);
    var u := OneMore(b, v.vals.keys, hash, i);
    assert FindView(k, k.sm.h, k.sm.r) == Found(VotingView);
    assert AllApply(b, u);
    LocalVoteIs(signed, k, kind, hash, i, VotingView);
  }

  lemma LocalVoteIs(signed: set<Vote>, k: K, kind: Kind, hash: Hash, i: nat, id: ViewId)
    requires FindView(k, k.sm.h, k.sm.r) == Found(id) && !id.NextRoundView?
    ensures
      var b := BallotOf(GetView(k, id), kind);
      var held := if hash in b.proofs then b.proofs[hash] else Proof(k.voting.vals.keys, {});
      var good := i < |held.keys| && k.sm.key == Some(held.keys[i]) && Vote(kind, held.keys[i], k.sm.h, k.sm.r, hash) in signed;
      LocalVote(signed, k, kind, hash, i)
      == if !good then Ok(k)
         else match AddVotes(k, kind, k.sm.h, k.sm.r, OneMore(b, k.voting.vals.keys, hash, i)) case Stuck => Stuck case Ok(p) => Ok(p.0)
  {
    var b := BallotOf(GetView(k, id), kind);
    var base := if hash in b.proofs then b.proofs[hash] else Proof(k.voting.vals.keys, {});
    assert base.(bits := base.bits + {i}) == Proof(base.keys, base.bits + {i});
    assert map[hash := VoteUpdate(base.(bits := base.bits + {i}), Ver(b, hash))] == OneMore(b, k.voting.vals.keys, hash, i);
  }

  /** In the committing round a vote is stored too. But a first vote for its target is filed over the voting
    height's validators: over the committing round's own exactly when the two have the same keys. */
  lemma LateVoteFiled(signed: set<Vote>, k: K, kind: Kind, hash: Hash, i: nat)
    requires Inv(k) && k.committing.version > 0 && k.sm.h > 0 && Matches(k.committing, k.sm.h, k.sm.r)
    requires hash !in BallotOf(k.committing, kind).proofs
    requires i < |k.voting.vals.keys| && k.sm.key == Some(k.voting.vals.keys[i])
    requires Vote(kind, k.voting.vals.keys[i], k.sm.h, k.sm.r, hash) in signed
    ensures LocalVote(signed, k, kind, hash, i).Ok?
    ensures
      var b := BallotOf(LocalVote(signed, k, kind, hash, i).value.committing, kind);
      && hash in b.proofs && b.proofs[hash] == Proof(k.voting.vals.keys, {i})
      && (b.proofs[hash].keys == k.committing.vals.keys <==> k.voting.vals.keys == k.committing.vals.keys)
  {
    var v := k.committing;
    var b := BallotOf(v, kind);
    var u := OneMore(b, k.voting.vals.keys, hash, i);
    FindMeaning(k, k.sm.h, k.sm.r);
    LocalVoteIs(signed, k, kind, hash, i, CommittingView);
    CommittingVotesStored(k, kind, u);
    ApplyExactly(b, u, hash);
    assert {} + {i} == {i};
  }

  // ----- Messages -----

  /** What was sent is not sent again: after sending, there is nothing to send. */
  lemma SentIsIdle(k: K)
    requires Inv(k) && k.sm.h > 0 && Output(k.sm).Send?
    ensures MarkSMSent(k).sm.jumpAhead.None? && Output(MarkSMSent(k).sm).Idle?
    ensures MarkSMSent(k) == k.(sm := MarkSMSent(k).sm) && MarkSMSent(k).sm.h == k.sm.h && MarkSMSent(k).sm.r == k.sm.r
  {
  }

  /** After sending to gossip every slot counts as sent, the round that was left is no longer offered, and
    nothing else changed. */
  lemma GossipSent(k: K)
    ensures
      var k' := SendGossip(k);
      && HasBeenSent(k'.gossipC) && HasBeenSent(k'.gossipV) && HasBeenSent(k'.gossipN) && k'.nilVoted.None?
      && k'.gossipC.view == k.gossipC.view && k'.gossipV.view == k.gossipV.view && k'.gossipN.view == k.gossipN.view
      && k' == k.(gossipC := k'.gossipC, gossipV := k'.gossipV, gossipN := k'.gossipN, nilVoted := None)
  {
  }

  /** An entrance: nothing of the last one remains, and the first version counts as sent. It panics exactly
    for a round that is neither open, committing nor behind. */
  lemma EntranceMeaning(k: K, h: nat, r: nat, key: Option<Key>)
    requires Inv(k) && h > 0
    ensures
      Enter(k, h, r, key).Ok? <==>
        || Matches(k.voting, h, r) || Matches(k.nextRound, h, r) || Matches(k.committing, h, r)
        || HRLess(h, r, k.committing.h, k.committing.r)
    ensures Enter(k, h, r, key).Ok? ==>
      && var k' := Enter(k, h, r, key).value;
      && k'.sm.h == h && k'.sm.r == r && k'.sm.key == key && k'.sm.jumpAhead.None? && !k'.sm.heightCommitted
      && k'.sm.outgoing == k.sm.outgoing && k' == k.(sm := k'.sm)
      && (HRLess(h, r, k.committing.h, k.committing.r) ==> k'.sm.lastSent == 0 && k'.sm.delivered == [])
      && (forall v :: v in [k.voting, k.nextRound, k.committing] && Matches(v, h, r) ==>
            k'.sm.lastSent == v.version && k'.sm.delivered == [v.version])
  {
    FindMeaning(k, h, r);
  }
}
