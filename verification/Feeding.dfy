/** What the mirror does between two messages to the state machine leaves the entrance alone, and does not
  change the view the state machine was sent without giving it a newer version. */
module Feeding {
  import opened Options
  import opened Quorum
  import opened Votes
  import opened Views
  import opened KernelSpec
  import opened KernelInv
  import MirrorSystem
  import MirrorRuns

  /** The view that is sent to the state machine when it changes. */
  function Fed(k: K): Option<View> {
    if Matches(k.voting, k.sm.h, k.sm.r) then Some(k.voting)
    else if Matches(k.committing, k.sm.h, k.sm.r) then Some(k.committing)
    else None
  }

  predicate SameEntrance(k: K, k': K) {
    && k'.sm.h == k.sm.h && k'.sm.r == k.sm.r && k'.sm.key == k.sm.key
    && k'.sm.lastSent == k.sm.lastSent && k'.sm.delivered == k.sm.delivered
  }

  /** A view kept for the state machine has a version. */
  predicate OutgoingMarked(k: K) {
    k.sm.outgoing.h > 0 ==> k.sm.outgoing.version > 0
  }

  /** A waiting jump leads to a round of the state machine's height, or is to a committed one. */
  predicate JumpNear(k: K) {
    k.sm.jumpAhead.Some? ==> k.sm.jumpAhead.value.h == k.sm.h || k.sm.jumpAhead.value.h <= k.committing.h
  }

  /** Whatever of the fed view was sent already is as it was, and a waiting jump is not taken back. */
  predicate FedSince(k: K, k': K) {
    && SameEntrance(k, k')
    && (k.sm.jumpAhead.Some? ==> k'.sm.jumpAhead.Some?)
    && (OutgoingMarked(k) && JumpNear(k) ==> OutgoingMarked(k') && JumpNear(k'))
    && (k.sm.h > 0 && Fed(k').Some? && Fed(k').value.version <= k.sm.lastSent ==> Fed(k') == Fed(k))
  }

  lemma FedTrans(k1: K, k2: K, k3: K)
    requires FedSince(k1, k2) && FedSince(k2, k3)
    ensures FedSince(k1, k3)
  {
  }

  lemma TouchFed(k: K, id: ViewId, w: View)
    requires Inv(k) && SameStamp(GetView(k, id), w)
    ensures FedSince(k, Touch(k, id, w))
  {
  }

  lemma IncrementFed(k: K)
    requires Inv(k)
    ensures FedSince(k, IncrementRound(k)) && FedSince(k, JumpRound(k))
  {
  }

  lemma AdvanceFed(k: K)
    requires Inv(k)
    ensures FedSince(k, AdvanceRound(k))
  {
    IncrementFed(k.(nilVoted := Some(k.voting)));
  }

  lemma ShiftFed(k: K, header: Header)
    requires Inv(k)
    ensures FedSince(k, ShiftToCommitting(k, header))
  {
  }

  lemma CheckVotingShiftFed(k: K)
    requires Inv(k) && CheckVotingShift(k).Ok?
    ensures FedSince(k, CheckVotingShift(k).value)
  {
    var hash := k.voting.summary.precommits.mostVoted;
    AdvanceFed(k);
    match FindHeader(k.voting.headers, hash) {
      case None =>
      case Some(header) => CommitFed(k, hash, header);
    }
  }

  lemma CommitFed(k: K, hash: Hash, header: Header)
    requires Inv(k)
    ensures FedSince(k, ShiftToCommitting(k.(log := k.log + [CommitRecord(k.voting, hash)]), header))
  {
    var k1 := k.(log := k.log + [CommitRecord(k.voting, hash)]);
    ShiftFed(k1, header);
    assert Fed(k1) == Fed(k);
  }

  lemma CheckShiftFed(k: K, id: ViewId, kind: Kind)
    requires Inv(k) && CheckShift(k, id, kind).Ok?
    ensures FedSince(k, CheckShift(k, id, kind).value)
  {
    IncrementFed(k);
    if id.VotingView? && kind.Precommit? {
      CheckVotingShiftFed(k);
    }
  }

  lemma StoreVotesFed(k: K, id: ViewId, kind: Kind, updates: map<Hash, VoteUpdate>)
    requires Inv(k) && StoreVotes(k, id, kind, updates).Ok?
    ensures FedSince(k, StoreVotes(k, id, kind, updates).value)
  {
    var v := GetView(k, id);
    TouchFed(k, id, Resummarize(WithBallot(v, kind, ApplyUpdates(BallotOf(v, kind), updates)), kind));
  }

  lemma AddVotesFed(k: K, kind: Kind, h: nat, r: nat, updates: map<Hash, VoteUpdate>)
    requires Inv(k) && AddVotes(k, kind, h, r, updates).Ok?
    ensures FedSince(k, AddVotes(k, kind, h, r, updates).value.0)
  {
    var f := FindView(k, h, r);
    if f.Found? {
      StoreVotesFed(k, f.id, kind, updates);
      StoreVotesKeeps(k, f.id, kind, updates);
      var k1 := StoreVotes(k, f.id, kind, updates).value;
      if CheckShift(k1, f.id, kind).Ok? {
        CheckShiftFed(k1, f.id, kind);
        FedTrans(k, k1, CheckShift(k1, f.id, kind).value);
      }
    }
  }

  lemma BackfillFed(signed: set<Vote>, k: K, carried: map<Hash, set<nat>>)
    requires Inv(k) && BackfillCommitting(signed, k, carried).Ok?
    ensures FedSince(k, BackfillCommitting(signed, k, carried).value)
  {
    var proofs := Backfill(signed, k.committing, carried);
    TouchFed(k, CommittingView, k.committing.(precommits := k.committing.precommits.(proofs := proofs)));
  }

  lemma AddHeaderFed(signed: set<Vote>, k: K, ph: ProposedHeader)
    requires Inv(k) && ph.header.height > 0 && AddHeader(signed, k, ph).Ok?
    ensures FedSince(k, AddHeader(signed, k, ph).value)
  {
    var f := FindView(k, ph.header.height, ph.round);
    if f.Found? && !HasSignature(GetView(k, f.id).headers, ph.sig) {
      var v := GetView(k, f.id);
      var w := v.(headers := v.headers + [ph]);
      var k1 := Touch(k, f.id, w);
      TouchKeeps(k, f.id, w);
      TouchFed(k, f.id, w);
      if !f.id.CommittingView? {
        BackfillKeeps(signed, k1, ph.header.prevCommit);
        BackfillFed(signed, k1, ph.header.prevCommit);
        var k2 := BackfillCommitting(signed, k1, ph.header.prevCommit).value;
        FedTrans(k, k1, k2);
        if f.id.VotingView? && ph.header.hash in k2.voting.precommits.proofs {
          CheckVotingShiftFed(k2);
          FedTrans(k, k2, CheckVotingShift(k2).value);
        }
      }
    }
  }

  lemma LocalVoteFed(signed: set<Vote>, k: K, kind: Kind, hash: Hash, i: nat)
    requires Inv(k) && LocalVote(signed, k, kind, hash, i).Ok?
    ensures FedSince(k, LocalVote(signed, k, kind, hash, i).value)
  {
    var f := FindView(k, k.sm.h, k.sm.r);
    if f.Found? && !f.id.NextRoundView? {
      var b := BallotOf(GetView(k, f.id), kind);
      var base := if hash in b.proofs then b.proofs[hash] else Proof(k.voting.vals.keys, {});
      var updates := map[hash := VoteUpdate(base.(bits := base.bits + {i}), Ver(b, hash))];
      if AddVotes(k, kind, k.sm.h, k.sm.r, updates).Ok? {
        AddVotesFed(k, kind, k.sm.h, k.sm.r, updates);
      }
    }
  }

  /** An event that is no message between the mirror and the state machine's round entrances. */
  predicate Apart(e: MirrorSystem.Event) {
    !e.SMEnter? && !e.SMSend?
  }

  lemma StepFed(signed: set<Vote>, m: MirrorSystem.Mirror, e: MirrorSystem.Event)
    requires Inv(m.k) && Apart(e) && MirrorSystem.Step(signed, m, e).Ok?
    ensures FedSince(m.k, MirrorSystem.Step(signed, m, e).value.k)
  {
    match e {
      case Submit(id) =>
        if id in m.pending {
          var p := m.pending[id];
          AddVotesFed(m.k, p.kind, p.h, p.r, p.updates);
        }
      case NewHeader(ph) =>
        if ph.header.height > 0 { AddHeaderFed(signed, m.k, ph); }
      case SMVote(kind, hash, i) => LocalVoteFed(signed, m.k, kind, hash, i);
      case _ =>
    }
  }

  /** The messages themselves. */
  lemma MessageMarked(signed: set<Vote>, m: MirrorSystem.Mirror, e: MirrorSystem.Event)
    requires OutgoingMarked(m.k) && JumpNear(m.k) && !Apart(e) && MirrorSystem.Step(signed, m, e).Ok?
    ensures var k' := MirrorSystem.Step(signed, m, e).value.k; OutgoingMarked(k') && JumpNear(k')
  {
  }

  /** In every reachable state. */
  lemma {:induction false} RunMarked(initialHeight: nat, vals: ValSet, es: seq<MirrorRuns.Input>, j: nat)
    requires initialHeight > 0 && j <= |es| && MirrorRuns.ForwardRun(MirrorRuns.Start(initialHeight, vals), es)
    requires MirrorRuns.Run(MirrorRuns.Start(initialHeight, vals), es[..j]).Ok?
    ensures
      var k := MirrorRuns.Run(MirrorRuns.Start(initialHeight, vals), es[..j]).value.k;
      OutgoingMarked(k) && JumpNear(k)
  {
    var m := MirrorRuns.Start(initialHeight, vals);
    if j > 0 {
      MirrorRuns.RunNext(m, es, j - 1);
      RunMarked(initialHeight, vals, es, j - 1);
      MirrorRuns.RunKeeps(initialHeight, vals, es, j - 1);
      var m1, x := MirrorRuns.Run(m, es[..j - 1]).value, es[j - 1];
      if Apart(x.event) { StepFed(x.signed, m1, x.event); } else { MessageMarked(x.signed, m1, x.event); }
    }
  }
}
