/** What every kernel step keeps. */
module KernelInv {
  import opened Options
  import opened Quorum
  import opened Votes
  import opened Views
  import opened KernelSpec

  // ----- Invariants -----

  /** The three views are consecutive. */
  ghost predicate Aligned(k: K) {
    && k.initialHeight > 0 && k.voting.h >= k.initialHeight
    && k.nextRound.h == k.voting.h && k.nextRound.r == k.voting.r + 1
    && k.nextRound.vals == k.voting.vals
    && k.voting.version > 0 && k.nextRound.version > 0
    && if k.voting.h == k.initialHeight then k.committing == ZERO_VIEW && k.committingHeader.None?
       else k.committing.h + 1 == k.voting.h && k.committing.version > 0
  }

  /** The cached summaries of the two live views agree with a recomputation. */
  ghost predicate Summarized(k: K) {
    SummaryFresh(k.voting) && SummaryFresh(k.nextRound)
  }

  predicate StampLess(v: View, w: View) {
    HRLess(v.h, v.r, w.h, w.r) || (v.h == w.h && v.r == w.r && v.version < w.version)
  }

  /** A slot holds the current view; what was sent last is that view or bears an older stamp. */
  ghost predicate SlotOk(s: Slot, v: View) {
    && s.view == v
    && s.sentH == s.sent.h && s.sentR == s.sent.r && s.sentV == s.sent.version
    && (s.sent == v || StampLess(s.sent, v))
  }

  ghost predicate Gossiping(k: K) {
    SlotOk(k.gossipC, k.committing) && SlotOk(k.gossipV, k.voting) && SlotOk(k.gossipN, k.nextRound)
  }

  ghost predicate Increasing(s: seq<nat>) {
    forall i, j :: 0 <= i < j < |s| ==> s[i] < s[j]
  }

  /** Everything the manager has for a view the state machine is on: either the latest version was
    delivered, or it is waiting to be. */
  ghost predicate Current(m: SMViews, v: View) {
    Matches(v, m.h, m.r) ==>
      if Matches(m.outgoing, m.h, m.r) && m.outgoing.version > m.lastSent then m.outgoing == v
      else m.lastSent == v.version
  }

  ghost predicate SMFed(k: K) {
    var m := k.sm;
    && HRLeq(m.h, m.r, k.nextRound.h, k.nextRound.r)
    && HRLeq(m.outgoing.h, m.outgoing.r, m.h, m.r)
    && Increasing(m.delivered)
    && m.lastSent == (if |m.delivered| == 0 then 0 else m.delivered[|m.delivered| - 1])
    && (m.h > 0 ==> Current(m, k.voting) && Current(m, k.committing))
    && (m.h > 0 && Matches(k.nextRound, m.h, m.r) ==>
          m.lastSent <= k.nextRound.version && !Matches(m.outgoing, m.h, m.r))
    && (m.h == 0 ==> m.r == 0 && m.outgoing.version == 0 && m.delivered == [])
  }

  ghost predicate Inv(k: K) {
    Aligned(k) && Summarized(k) && Gossiping(k) && SMFed(k)
  }

  // ----- Primitive changes -----

  /** Replaces the content of one view. */
  ghost predicate SameStamp(v: View, w: View) {
    w.h == v.h && w.r == v.r && w.vals == v.vals && w.version == v.version
  }

  ghost function Touch(k: K, id: ViewId, w: View): K {
    Mark(SetView(k, id, w), id)
  }

  lemma TouchKeeps(k: K, id: ViewId, w: View)
    requires Inv(k) && SameStamp(GetView(k, id), w) && w.version > 0
    requires !id.CommittingView? ==> SummaryFresh(w)
    ensures Inv(Touch(k, id, w))
    ensures SameStamp(Bump(GetView(k, id)), GetView(Touch(k, id, w), id))
  {
    TouchFeeds(k, id, w);
    match id {
      case CommittingView => assert Touch(k, id, w).committing == Bump(w);
      case VotingView => assert Touch(k, id, w).voting == Bump(w);
      case NextRoundView => assert Touch(k, id, w).nextRound == Bump(w);
    }
  }

  lemma TouchFeeds(k: K, id: ViewId, w: View)
    requires Aligned(k) && SMFed(k) && SameStamp(GetView(k, id), w) && w.version > 0
    ensures SMFed(Touch(k, id, w))
  {
  }

  lemma IncrementKeeps(k: K)
    requires Inv(k)
    ensures Inv(IncrementRound(k))
    ensures IncrementRound(k).voting == Bump(k.nextRound)
    ensures IncrementRound(k).committing == k.committing
  {
    EmptyTally(k.voting.vals.powers);
  }

  lemma ShiftKeeps(k: K, header: Header)
    requires Inv(k)
    ensures Inv(ShiftToCommitting(k, header))
    ensures ShiftToCommitting(k, header).committing == Bump(k.voting)
  {
    EmptyTally(header.nextVals.powers);
    ShiftFeeds(k, header);
  }

  lemma ShiftFeeds(k: K, header: Header)
    requires Aligned(k) && SMFed(k)
    ensures SMFed(ShiftToCommitting(k, header))
  {
  }

  // ----- Kernel steps -----

  lemma InitiallyHolds(initialHeight: nat, vals: ValSet)
    requires initialHeight > 0
    ensures Inv(InitialK(initialHeight, vals))
  {
    EmptyTally(vals.powers);
  }

  lemma JumpKeeps(k: K)
    requires Inv(k)
    ensures Inv(JumpRound(k))
  {
    IncrementKeeps(k);
  }

  lemma AdvanceKeeps(k: K)
    requires Inv(k)
    ensures Inv(AdvanceRound(k))
  {
    IncrementKeeps(k.(nilVoted := Some(k.voting)));
  }

  lemma CheckVotingShiftKeeps(k: K)
    requires Inv(k) && CheckVotingShift(k).Ok?
    ensures Inv(CheckVotingShift(k).value)
  {
    var vs := k.voting.summary;
    var hash := vs.precommits.mostVoted;
    AdvanceKeeps(k);
    match FindHeader(k.voting.headers, hash) {
      case None =>
      case Some(header) => ShiftKeeps(k.(log := k.log + [CommitRecord(k.voting, hash)]), header);
    }
  }

  lemma CheckShiftKeeps(k: K, id: ViewId, kind: Kind)
    requires Inv(k) && CheckShift(k, id, kind).Ok?
    ensures Inv(CheckShift(k, id, kind).value)
  {
    JumpKeeps(k);
    if id.VotingView? && kind.Precommit? {
      CheckVotingShiftKeeps(k);
    }
  }

  lemma StoreVotesKeeps(k: K, id: ViewId, kind: Kind, updates: map<Hash, VoteUpdate>)
    requires Inv(k) && StoreVotes(k, id, kind, updates).Ok?
    ensures Inv(StoreVotes(k, id, kind, updates).value)
  {
    var v := GetView(k, id);
    var w := Resummarize(WithBallot(v, kind, ApplyUpdates(BallotOf(v, kind), updates)), kind);
    if v.version > 0 {
      TouchKeeps(k, id, w);
    }
  }

  lemma AddVotesKeeps(k: K, kind: Kind, h: nat, r: nat, updates: map<Hash, VoteUpdate>)
    requires Inv(k) && AddVotes(k, kind, h, r, updates).Ok?
    ensures Inv(AddVotes(k, kind, h, r, updates).value.0)
  {
    var f := FindView(k, h, r);
    if f.Found? {
      StoreVotesKeeps(k, f.id, kind, updates);
      var k1 := StoreVotes(k, f.id, kind, updates).value;
      if CheckShift(k1, f.id, kind).Ok? {
        CheckShiftKeeps(k1, f.id, kind);
      }
    }
  }

  lemma BackfillKeeps(signed: set<Vote>, k: K, carried: map<Hash, set<nat>>)
    requires Inv(k) && BackfillCommitting(signed, k, carried).Ok?
    ensures Inv(BackfillCommitting(signed, k, carried).value)
    ensures BackfillCommitting(signed, k, carried).value.voting == k.voting
    ensures BackfillCommitting(signed, k, carried).value.nextRound == k.nextRound
  {
    var proofs := Backfill(signed, k.committing, carried);
    if proofs != k.committing.precommits.proofs {
      TouchKeeps(k, CommittingView, k.committing.(precommits := k.committing.precommits.(proofs := proofs)));
    }
  }

  lemma AddHeaderKeeps(signed: set<Vote>, k: K, ph: ProposedHeader)
    requires Inv(k) && ph.header.height > 0 && AddHeader(signed, k, ph).Ok?
    ensures Inv(AddHeader(signed, k, ph).value)
  {
    var f := FindView(k, ph.header.height, ph.round);
    if f.Found? && !HasSignature(GetView(k, f.id).headers, ph.sig) {
      var v := GetView(k, f.id);
      TouchKeeps(k, f.id, v.(headers := v.headers + [ph]));
      var k1 := Touch(k, f.id, v.(headers := v.headers + [ph]));
      if !f.id.CommittingView? {
        BackfillKeeps(signed, k1, ph.header.prevCommit);
        var k2 := BackfillCommitting(signed, k1, ph.header.prevCommit).value;
        if f.id.VotingView? && ph.header.hash in k2.voting.precommits.proofs {
          CheckVotingShiftKeeps(k2);
        }
      }
    }
  }

  lemma EnterKeeps(k: K, h: nat, r: nat, key: Option<Key>)
    requires Inv(k) && HRLess(k.sm.h, k.sm.r, h, r) && h > 0 && Enter(k, h, r, key).Ok?
    ensures Inv(Enter(k, h, r, key).value)
  {
  }

  lemma MarkSMSentKeeps(k: K)
    requires Inv(k)
    ensures Inv(MarkSMSent(k))
  {
  }

  lemma LocalVoteKeeps(signed: set<Vote>, k: K, kind: Kind, hash: Hash, i: nat)
    requires Inv(k) && LocalVote(signed, k, kind, hash, i).Ok?
    ensures Inv(LocalVote(signed, k, kind, hash, i).value)
  {
    var f := FindView(k, k.sm.h, k.sm.r);
    if f.Found? && !f.id.NextRoundView? {
      var b := BallotOf(GetView(k, f.id), kind);
      var base := if hash in b.proofs then b.proofs[hash] else Proof(k.voting.vals.keys, {});
      var updates := map[hash := VoteUpdate(base.(bits := base.bits + {i}), Ver(b, hash))];
      if AddVotes(k, kind, k.sm.h, k.sm.r, updates).Ok? {
        AddVotesKeeps(k, kind, k.sm.h, k.sm.r, updates);
      }
    }
  }

  lemma SendGossipKeeps(k: K)
    requires Inv(k)
    ensures Inv(SendGossip(k))
  {
  }
}
