/** Whole runs of a mirror: any interleaving of kernel steps, handlers, the local state machine and
  the channels out. */
module MirrorRuns {
  import opened Options
  import opened Quorum
  import opened Votes
  import opened Views
  import opened KernelSpec
  import opened KernelInv
  import opened MirrorSystem

  /** An event, with the signatures released so far. */
  datatype Input = Input(signed: set<Vote>, event: Event)

  ghost function Run(m: Mirror, es: seq<Input>): Outcome<Mirror> {
    if |es| == 0 then Ok(m)
    else
      match Run(m, es[..|es| - 1])
      case Stuck => Stuck
      case Ok(m1) => Step(es[|es| - 1].signed, m1, es[|es| - 1].event)
  }

  /** The local state machine's entrances strictly increase in (height, round). */
  ghost predicate ForwardRun(m: Mirror, es: seq<Input>) {
    forall i :: 0 <= i < |es| ==> ForwardAt(m, es, i)
  }

  ghost predicate ForwardAt(m: Mirror, es: seq<Input>, i: nat)
    requires i < |es|
  {
    Run(m, es[..i]).Ok? ==> Forward(Run(m, es[..i]).value, es[i].event)
  }

  function Start(initialHeight: nat, vals: ValSet): Mirror {
    Mirror(InitialK(initialHeight, vals), map[])
  }

  lemma RunNext(m: Mirror, es: seq<Input>, i: nat)
    requires i < |es| && Run(m, es[..i + 1]).Ok?
    ensures Run(m, es[..i]).Ok?
    ensures Run(m, es[..i + 1]) == Step(es[i].signed, Run(m, es[..i]).value, es[i].event)
  {
    assert es[..i + 1][..i] == es[..i];
  }

  /** The invariants hold at every point of every run. */
  lemma {:induction false} RunKeeps(initialHeight: nat, vals: ValSet, es: seq<Input>, j: nat)
    requires initialHeight > 0 && j <= |es|
    requires ForwardRun(Start(initialHeight, vals), es) && Run(Start(initialHeight, vals), es[..j]).Ok?
    ensures MirrorOk(Run(Start(initialHeight, vals), es[..j]).value)
  {
    var m := Start(initialHeight, vals);
    if j == 0 {
      InitiallyHolds(initialHeight, vals);
    } else {
      RunNext(m, es, j - 1);
      RunKeeps(initialHeight, vals, es, j - 1);
      assert ForwardAt(m, es, j - 1);
      StepOk(es[j - 1].signed, Run(m, es[..j - 1]).value, es[j - 1].event);
    }
  }

  /** Later points of a run follow earlier ones. */
  lemma {:induction false} RunFollows(initialHeight: nat, vals: ValSet, es: seq<Input>, i: nat, j: nat)
    requires initialHeight > 0 && i <= j <= |es|
    requires ForwardRun(Start(initialHeight, vals), es) && Run(Start(initialHeight, vals), es[..j]).Ok?
    ensures Run(Start(initialHeight, vals), es[..i]).Ok?
    ensures MirrorOk(Run(Start(initialHeight, vals), es[..i]).value)
    ensures Follows(Run(Start(initialHeight, vals), es[..i]).value.k, Run(Start(initialHeight, vals), es[..j]).value.k)
    decreases j
  {
    var m := Start(initialHeight, vals);
    if i == j {
      RunKeeps(initialHeight, vals, es, j);
      FollowsRefl(Run(m, es[..j]).value.k);
    } else {
      RunNext(m, es, j - 1);
      RunFollows(initialHeight, vals, es, i, j - 1);
      RunKeeps(initialHeight, vals, es, j - 1);
      assert ForwardAt(m, es, j - 1);
      var mi, mp, mj := Run(m, es[..i]).value, Run(m, es[..j - 1]).value, Run(m, es[..j]).value;
      StepOk(es[j - 1].signed, mp, es[j - 1].event);
      FollowsTrans(mi.k, mp.k, mj.k);
    }
  }

  /** No lost updates: between any two points of a run at which a view is live, its signers per block
    hash only grow. */
  lemma NoLostVotes(initialHeight: nat, vals: ValSet, es: seq<Input>, i: nat, j: nat, kind: Kind, h: nat, r: nat, hash: Hash)
    requires initialHeight > 0 && i <= j <= |es|
    requires ForwardRun(Start(initialHeight, vals), es) && Run(Start(initialHeight, vals), es[..j]).Ok?
    ensures Run(Start(initialHeight, vals), es[..i]).Ok?
    ensures
      var vi := LiveView(Run(Start(initialHeight, vals), es[..i]).value.k, kind, h, r);
      var vj := LiveView(Run(Start(initialHeight, vals), es[..j]).value.k, kind, h, r);
      vi.Some? && vj.Some? ==>
        Signers(BallotOf(vi.value, kind), hash) <= Signers(BallotOf(vj.value, kind), hash)
  {
    RunFollows(initialHeight, vals, es, i, j);
    var m := Start(initialHeight, vals);
    var ki, kj := Run(m, es[..i]).value.k, Run(m, es[..j]).value.k;
    assert FollowsAt(ki, kj, kind, h, r);
    if LiveView(ki, kind, h, r).Some? && LiveView(kj, kind, h, r).Some? {
      assert GrowsAt(BallotOf(LiveView(ki, kind, h, r).value, kind), BallotOf(LiveView(kj, kind, h, r).value, kind), hash);
    }
  }

  /** The handler with this identifier submits now and is told its votes were accepted. */
  ghost predicate AcceptsSubmission(m: Mirror, id: nat) {
    && id in m.pending
    && var p := m.pending[id];
    && AddVotes(m.k, p.kind, p.h, p.r, p.updates).Ok?
    && AddVotes(m.k, p.kind, p.h, p.r, p.updates).value.1 == Accepted
  }

  // ----- What the invariants mean -----

  /** A view found for a height and round is the view of exactly that height and round. */
  lemma FoundViewMatches(k: K, h: nat, r: nat)
    requires Inv(k) && FindView(k, h, r).Found?
    ensures Matches(GetView(k, FindView(k, h, r).id), h, r)
  {
  }

  /** After an update is stored, a view has exactly the update's signers for the block. */
  lemma StoredSigners(k: K, id: ViewId, kind: Kind, updates: map<Hash, VoteUpdate>, hash: Hash)
    requires hash in updates && Applies(BallotOf(GetView(k, id), kind), updates, hash)
    requires StoreVotes(k, id, kind, updates).Ok?
    ensures
      var v1 := GetView(StoreVotes(k, id, kind, updates).value, id);
      Matches(v1, GetView(k, id).h, GetView(k, id).r) && Signers(BallotOf(v1, kind), hash) == updates[hash].proof.bits
  {
    var v := GetView(k, id);
    var b := BallotOf(v, kind);
    TouchedBallot(k, id, kind, Resummarize(WithBallot(v, kind, ApplyUpdates(b, updates)), kind));
    AppliedSigners(b, updates, hash);
  }

  lemma TouchedBallot(k: K, id: ViewId, kind: Kind, w: View)
    ensures BallotOf(GetView(Touch(k, id, w), id), kind) == BallotOf(w, kind)
    ensures Matches(GetView(Touch(k, id, w), id), w.h, w.r)
  {
  }

  lemma AppliedSigners(b: Ballot, updates: map<Hash, VoteUpdate>, hash: Hash)
    requires hash in updates && Applies(b, updates, hash)
    ensures Signers(ApplyUpdates(b, updates), hash) == updates[hash].proof.bits
  {
  }

  lemma AcceptedShape(k: K, kind: Kind, h: nat, r: nat, updates: map<Hash, VoteUpdate>)
    requires AddVotes(k, kind, h, r, updates).Ok? && AddVotes(k, kind, h, r, updates).value.1 == Accepted
    ensures FindView(k, h, r).Found?
    ensures
      var id := FindView(k, h, r).id;
      && AllApply(BallotOf(GetView(k, id), kind), updates)
      && StoreVotes(k, id, kind, updates).Ok?
      && CheckShift(StoreVotes(k, id, kind, updates).value, id, kind) == Ok(AddVotes(k, kind, h, r, updates).value.0)
  {
  }

  lemma LiveSignersGrow(k: K, k': K, kind: Kind, h: nat, r: nat, hash: Hash)
    requires Follows(k, k') && LiveView(k, kind, h, r).Some? && LiveView(k', kind, h, r).Some?
    ensures Signers(BallotOf(LiveView(k, kind, h, r).value, kind), hash)
         <= Signers(BallotOf(LiveView(k', kind, h, r).value, kind), hash)
  {
    assert FollowsAt(k, k', kind, h, r);
    assert GrowsAt(BallotOf(LiveView(k, kind, h, r).value, kind), BallotOf(LiveView(k', kind, h, r).value, kind), hash);
  }

  lemma GoneStaysGone(k: K, k': K, kind: Kind, h: nat, r: nat)
    requires Follows(k, k') && LiveView(k', kind, h, r).Some?
    requires HRLeq(h, r, k.nextRound.h, k.nextRound.r)
    ensures LiveView(k, kind, h, r).Some?
  {
    assert FollowsAt(k, k', kind, h, r);
  }

  /** Accepted means stored: the view the kernel answers from has every valid signature the handler
    merged, and so has every later state in which the view is live. */
  lemma AcceptedIsStored(k: K, p: Pending, hash: Hash)
    requires Inv(k) && PendingOk(k, p) && hash in p.merged
    requires AddVotes(k, p.kind, p.h, p.r, p.updates).Ok?
    requires AddVotes(k, p.kind, p.h, p.r, p.updates).value.1 == Accepted
    ensures FindView(k, p.h, p.r).Found?
    ensures
      var id := FindView(k, p.h, p.r).id;
      && StoreVotes(k, id, p.kind, p.updates).Ok?
      && p.merged[hash] <= Signers(BallotOf(GetView(StoreVotes(k, id, p.kind, p.updates).value, id), p.kind), hash)
    ensures
      var v := LiveView(AddVotes(k, p.kind, p.h, p.r, p.updates).value.0, p.kind, p.h, p.r);
      v.Some? ==> p.merged[hash] <= Signers(BallotOf(v.value, p.kind), hash)
  {
    AcceptedShape(k, p.kind, p.h, p.r, p.updates);
    var id := FindView(k, p.h, p.r).id;
    StoreVotesKeeps(k, id, p.kind, p.updates);
    StoredSigners(k, id, p.kind, p.updates, hash);
    var k1 := StoreVotes(k, id, p.kind, p.updates).value;
    CheckShiftFollows(k1, id, p.kind);
    var k2 := CheckShift(k1, id, p.kind).value;
    FoundViewMatches(k, p.h, p.r);
    LiveStays(k, k1, id, p.kind, p.h, p.r);
    if LiveView(k2, p.kind, p.h, p.r).Some? {
      StoreVotesFrontier(k, id, p.kind, p.updates);
      GoneStaysGone(k1, k2, p.kind, p.h, p.r);
      LiveSignersGrow(k1, k2, p.kind, p.h, p.r, hash);
    }
  }

  lemma StoreVotesFrontier(k: K, id: ViewId, kind: Kind, updates: map<Hash, VoteUpdate>)
    requires StoreVotes(k, id, kind, updates).Ok?
    ensures
      var k1 := StoreVotes(k, id, kind, updates).value;
      Matches(k1.nextRound, k.nextRound.h, k.nextRound.r)
  {
    var v := GetView(k, id);
    var w := Resummarize(WithBallot(v, kind, ApplyUpdates(BallotOf(v, kind), updates)), kind);
    assert Matches(w, v.h, v.r);
  }

  /** Storing votes in a view does not change which view it is. */
  lemma LiveStays(k: K, k1: K, id: ViewId, kind: Kind, h: nat, r: nat)
    requires Inv(k) && Inv(k1) && Matches(GetView(k, id), h, r) && Matches(GetView(k1, id), h, r)
    requires h > 0 || k1.committing.h == 0
    ensures LiveView(k1, kind, h, r).Some? ==> LiveView(k1, kind, h, r).value == GetView(k1, id)
  {
  }

  /** ... and it stays stored for as long as the view is live. */
  lemma AcceptedStaysStored(initialHeight: nat, vals: ValSet, es: seq<Input>, i: nat, j: nat, hash: Hash)
    requires initialHeight > 0 && i < j <= |es| && es[i].event.Submit?
    requires ForwardRun(Start(initialHeight, vals), es) && Run(Start(initialHeight, vals), es[..j]).Ok?
    requires Run(Start(initialHeight, vals), es[..i]).Ok?
    requires AcceptsSubmission(Run(Start(initialHeight, vals), es[..i]).value, es[i].event.id)
    requires hash in Run(Start(initialHeight, vals), es[..i]).value.pending[es[i].event.id].merged
    ensures
      var p := Run(Start(initialHeight, vals), es[..i]).value.pending[es[i].event.id];
      var v := LiveView(Run(Start(initialHeight, vals), es[..j]).value.k, p.kind, p.h, p.r);
      v.Some? ==> p.merged[hash] <= Signers(BallotOf(v.value, p.kind), hash)
  {
    var m := Start(initialHeight, vals);
    RunFollows(initialHeight, vals, es, i, j);
    RunFollows(initialHeight, vals, es, i + 1, j);
    RunNext(m, es, i);
    var mi, mn, mj := Run(m, es[..i]).value, Run(m, es[..i + 1]).value, Run(m, es[..j]).value;
    var p := mi.pending[es[i].event.id];
    assert PendingOk(mi.k, p);
    AcceptedIsStored(mi.k, p, hash);
    assert mn.k == AddVotes(mi.k, p.kind, p.h, p.r, p.updates).value.0;
    RunFollows(initialHeight, vals, es, i, i + 1);
    if LiveView(mj.k, p.kind, p.h, p.r).Some? {
      StepOkFrontier(mi, mn, p.h, p.r);
      GoneStaysGone(mn.k, mj.k, p.kind, p.h, p.r);
      LiveSignersGrow(mn.k, mj.k, p.kind, p.h, p.r, hash);
    }
  }

  lemma StepOkFrontier(m: Mirror, m': Mirror, h: nat, r: nat)
    requires Inv(m.k) && Inv(m'.k) && HRLeq(m.k.voting.h, m.k.voting.r, m'.k.voting.h, m'.k.voting.r)
    requires HRLeq(h, r, m.k.nextRound.h, m.k.nextRound.r)
    ensures HRLeq(h, r, m'.k.nextRound.h, m'.k.nextRound.r)
  {
  }

  /** Over any stretch of a run the voting height and round never go back, and a changed voting
    (height, round) is strictly later; the views stay consecutive. */
  lemma VotingOnlyAdvances(initialHeight: nat, vals: ValSet, es: seq<Input>, i: nat, j: nat)
    requires initialHeight > 0 && i <= j <= |es|
    requires ForwardRun(Start(initialHeight, vals), es) && Run(Start(initialHeight, vals), es[..j]).Ok?
    ensures Run(Start(initialHeight, vals), es[..i]).Ok?
    ensures
      var ki := Run(Start(initialHeight, vals), es[..i]).value.k;
      var kj := Run(Start(initialHeight, vals), es[..j]).value.k;
      && (Matches(kj.voting, ki.voting.h, ki.voting.r) || HRLess(ki.voting.h, ki.voting.r, kj.voting.h, kj.voting.r))
      && kj.nextRound.h == kj.voting.h && kj.nextRound.r == kj.voting.r + 1
      && (kj.voting.h > initialHeight ==> kj.committing.h + 1 == kj.voting.h)
  {
    RunFollows(initialHeight, vals, es, i, j);
    RunFollows(initialHeight, vals, es, 0, j);
    RunKeeps(initialHeight, vals, es, j);
  }

  /** In every reachable state the cached summaries of the live views are the recomputed ones. */
  lemma SummariesAlwaysFresh(initialHeight: nat, vals: ValSet, es: seq<Input>)
    requires initialHeight > 0
    requires ForwardRun(Start(initialHeight, vals), es) && Run(Start(initialHeight, vals), es).Ok?
    ensures
      var k := Run(Start(initialHeight, vals), es).value.k;
      forall v :: v in [k.voting, k.nextRound] ==>
        && v.summary.available == Total(v.vals.powers)
        && v.summary.prevotes == TallyOf(v.vals.powers, v.prevotes.proofs)
        && v.summary.precommits == TallyOf(v.vals.powers, v.precommits.proofs)
  {
    assert es[..|es|] == es;
    RunKeeps(initialHeight, vals, es, |es|);
    var k := Run(Start(initialHeight, vals), es).value.k;
    forall v | v in [k.voting, k.nextRound]
      ensures v.summary.prevotes == TallyOf(v.vals.powers, v.prevotes.proofs)
      ensures v.summary.precommits == TallyOf(v.vals.powers, v.precommits.proofs)
    {
      TallyUnique(v.vals.powers, v.prevotes.proofs, v.summary.prevotes, TallyOf(v.vals.powers, v.prevotes.proofs));
      TallyUnique(v.vals.powers, v.precommits.proofs, v.summary.precommits, TallyOf(v.vals.powers, v.precommits.proofs));
    }
  }

  /** Gossip has no ABA: each slot holds the current view, and counts as sent exactly when that very
    view, content included, is the one last sent. */
  lemma GossipIsExact(initialHeight: nat, vals: ValSet, es: seq<Input>)
    requires initialHeight > 0
    requires ForwardRun(Start(initialHeight, vals), es) && Run(Start(initialHeight, vals), es).Ok?
    ensures
      var k := Run(Start(initialHeight, vals), es).value.k;
      && k.gossipC.view == k.committing && (HasBeenSent(k.gossipC) <==> k.gossipC.sent == k.committing)
      && k.gossipV.view == k.voting && (HasBeenSent(k.gossipV) <==> k.gossipV.sent == k.voting)
      && k.gossipN.view == k.nextRound && (HasBeenSent(k.gossipN) <==> k.gossipN.sent == k.nextRound)
  {
    assert es[..|es|] == es;
    RunKeeps(initialHeight, vals, es, |es|);
  }

  /** Views reach the local state machine in order: what is sent is for its current entrance and newer
    than everything sent for it before. When nothing is waiting, it has the latest version of its view
    if that view is voting or committing. */
  lemma DeliveryIsOrderedAndComplete(initialHeight: nat, vals: ValSet, es: seq<Input>)
    requires initialHeight > 0
    requires ForwardRun(Start(initialHeight, vals), es) && Run(Start(initialHeight, vals), es).Ok?
    ensures
      var k := Run(Start(initialHeight, vals), es).value.k;
      var out := Output(k.sm);
      && Increasing(k.sm.delivered)
      && (out.Send? && out.vrv.Some? ==>
            && Matches(out.vrv.value, k.sm.h, k.sm.r)
            && forall d :: d in k.sm.delivered ==> d < out.vrv.value.version)
      && (out.Idle? ==> forall v :: v in [k.voting, k.committing] && k.sm.h > 0 && Matches(v, k.sm.h, k.sm.r) ==>
            k.sm.lastSent == v.version && (|k.sm.delivered| > 0 ==> k.sm.delivered[|k.sm.delivered| - 1] == v.version))
  {
    assert es[..|es|] == es;
    RunKeeps(initialHeight, vals, es, |es|);
    var k := Run(Start(initialHeight, vals), es).value.k;
    var s := k.sm.delivered;
    forall d | d in s ensures d <= k.sm.lastSent {
      var i :| 0 <= i < |s| && s[i] == d;
      if i < |s| - 1 { assert s[i] < s[|s| - 1]; }
    }
  }

  // ----- Where updates can be lost -----

  /** Precommits of the committing view are the exception. A backfill adds signatures without changing
    the block's version, so a handler that looked the view up before the backfill still passes the
    version check, is accepted, and overwrites what was backfilled: the stored signers are those it saw
    and those it merged. Nothing is lost exactly when the backfill brought nobody else. */
  lemma BackfillIsOverwritten(signed: set<Vote>, k: K, carried: map<Hash, set<nat>>, claims: map<Hash, set<nat>>, hash: Hash)
    requires Inv(k) && k.committing.version > 0 && hash in k.committing.precommits.proofs
    requires claims.Keys == {hash} && Missing(k.committing, Precommit, hash, claims[hash]) != {}
    requires BackfillCommitting(signed, k, carried).Ok? && hash in carried
    ensures
      var v := k.committing;
      var kb := BackfillCommitting(signed, k, carried).value;
      var saw := Signers(v.precommits, hash) + MergedSigners(signed, v, Precommit, claims)[hash];
      var backfilled := Verified(signed, v.precommits.proofs[hash], Precommit, v.h, v.r, hash, carried[hash]);
      var o := AddVotes(kb, Precommit, v.h, v.r, PrepareUpdates(signed, v, Precommit, claims));
      && Signers(kb.committing.precommits, hash) == Signers(v.precommits, hash) + backfilled
      && o.Ok? && o.value.1 == Accepted
      && Signers(o.value.0.committing.precommits, hash) == saw
      && (Signers(kb.committing.precommits, hash) <= Signers(o.value.0.committing.precommits, hash) <==> backfilled <= saw)
  {
    var v := k.committing;
    var kb := BackfillCommitting(signed, k, carried).value;
    var updates := PrepareUpdates(signed, v, Precommit, claims);
    assert updates.Keys == {hash};
    BackfilledView(signed, k, carried, hash);
    BackfillKeeps(signed, k, carried);
    BackfillSettled(signed, k, carried);
    assert Applies(kb.committing.precommits, updates, hash);
    CommittingAccepts(kb, updates, hash);
    StoredSigners(kb, CommittingView, Precommit, updates, hash);
  }

  lemma BackfillSettled(signed: set<Vote>, k: K, carried: map<Hash, set<nat>>)
    requires Inv(k) && k.committing.version > 0 && BackfillCommitting(signed, k, carried).Ok?
    ensures FindView(BackfillCommitting(signed, k, carried).value, k.committing.h, k.committing.r) == Found(CommittingView)
  {
  }

  /** A submission for one block of the committing view, at that block's version. */
  lemma CommittingAccepts(k: K, updates: map<Hash, VoteUpdate>, hash: Hash)
    requires k.committing.version > 0 && FindView(k, k.committing.h, k.committing.r) == Found(CommittingView)
    requires updates.Keys == {hash} && Applies(k.committing.precommits, updates, hash)
    ensures StoreVotes(k, CommittingView, Precommit, updates).Ok?
    ensures AddVotes(k, Precommit, k.committing.h, k.committing.r, updates)
         == Ok((StoreVotes(k, CommittingView, Precommit, updates).value, Accepted))
  {
    assert AllApply(k.committing.precommits, updates);
  }

  lemma BackfilledView(signed: set<Vote>, k: K, carried: map<Hash, set<nat>>, hash: Hash)
    requires BackfillCommitting(signed, k, carried).Ok? && hash in carried && hash in k.committing.precommits.proofs
    ensures
      var v, w := k.committing, BackfillCommitting(signed, k, carried).value.committing;
      && Matches(w, v.h, v.r) && w.precommits.vers == v.precommits.vers
      && w.version >= v.version
      && Signers(w.precommits, hash) == Signers(v.precommits, hash)
           + Verified(signed, v.precommits.proofs[hash], Precommit, v.h, v.r, hash, carried[hash])
  {
    var v := k.committing;
    var proofs := Backfill(signed, v, carried);
    assert proofs[hash] == MergeSparse(signed, v.precommits.proofs[hash], Precommit, v.h, v.r, hash, carried[hash]);
  }
}
