/** From the signatures a peer claims to the signers in the view. */
module Claims {
  import opened Options
  import opened Votes
  import opened Views
  import opened KernelSpec
  import opened KernelInv
  import opened MirrorSystem
  import opened MirrorRuns

  // ----- Proofs are over the view's validators -----

  predicate ProofKeyed(p: Proof, keys: seq<Key>) {
    p.keys == keys && forall i :: i in p.bits ==> i < |keys|
  }

  predicate BallotKeyed(b: Ballot, keys: seq<Key>) {
    forall hash :: hash in b.proofs ==> ProofKeyed(b.proofs[hash], keys)
  }

  predicate ViewKeyed(v: View) {
    BallotKeyed(v.prevotes, v.vals.keys) && BallotKeyed(v.precommits, v.vals.keys)
  }

  predicate Keyed(k: K) {
    ViewKeyed(k.voting) && ViewKeyed(k.nextRound)
  }

  predicate UpdatesKeyed(updates: map<Hash, VoteUpdate>, keys: seq<Key>) {
    forall hash :: hash in updates ==> ProofKeyed(updates[hash].proof, keys)
  }

  /** The round is voting, or next. */
  predicate Open(k: K, h: nat, r: nat) {
    FindView(k, h, r) == Found(VotingView) || FindView(k, h, r) == Found(NextRoundView)
  }

  predicate PendingKeyed(k: K, p: Pending) {
    Open(k, p.h, p.r) ==> UpdatesKeyed(p.updates, k.voting.vals.keys)
  }

  ghost predicate MirrorKeyed(m: Mirror) {
    Keyed(m.k) && forall id :: id in m.pending ==> PendingKeyed(m.k, m.pending[id])
  }

  lemma TouchKeyed(k: K, id: ViewId, w: View)
    requires Keyed(k) && ViewKeyed(w) && w.vals == GetView(k, id).vals
    ensures Keyed(Touch(k, id, w))
  {
  }

  lemma CommittingTouchKeyed(k: K, w: View)
    requires Keyed(k)
    ensures Keyed(Touch(k, CommittingView, w))
  {
  }

  lemma CheckShiftKeyed(k: K, id: ViewId, kind: Kind)
    requires Keyed(k) && CheckShift(k, id, kind).Ok?
    ensures Keyed(CheckShift(k, id, kind).value)
  {
  }

  lemma StoreVotesKeyed(k: K, id: ViewId, kind: Kind, updates: map<Hash, VoteUpdate>)
    requires Aligned(k) && Keyed(k) && StoreVotes(k, id, kind, updates).Ok?
    requires !id.CommittingView? ==> UpdatesKeyed(updates, k.voting.vals.keys)
    ensures Keyed(StoreVotes(k, id, kind, updates).value)
  {
    var v := GetView(k, id);
    var b := BallotOf(v, kind);
    var w := Resummarize(WithBallot(v, kind, ApplyUpdates(b, updates)), kind);
    if id.CommittingView? {
      CommittingTouchKeyed(k, w);
    } else {
      assert BallotKeyed(ApplyUpdates(b, updates), v.vals.keys);
      TouchKeyed(k, id, w);
    }
  }

  lemma AddVotesKeyed(k: K, kind: Kind, h: nat, r: nat, updates: map<Hash, VoteUpdate>)
    requires Aligned(k) && Keyed(k) && AddVotes(k, kind, h, r, updates).Ok?
    requires Open(k, h, r) ==> UpdatesKeyed(updates, k.voting.vals.keys)
    ensures Keyed(AddVotes(k, kind, h, r, updates).value.0)
  {
    var f := FindView(k, h, r);
    if f.Found? {
      StoreVotesKeyed(k, f.id, kind, updates);
      var k1 := StoreVotes(k, f.id, kind, updates).value;
      if CheckShift(k1, f.id, kind).Ok? {
        CheckShiftKeyed(k1, f.id, kind);
      }
    }
  }

  lemma AddHeaderKeyed(signed: set<Vote>, k: K, ph: ProposedHeader)
    requires Keyed(k) && AddHeader(signed, k, ph).Ok?
    ensures Keyed(AddHeader(signed, k, ph).value)
  {
    var f := FindView(k, ph.header.height, ph.round);
    if f.Found? && !HasSignature(GetView(k, f.id).headers, ph.sig) {
      var v := GetView(k, f.id);
      var w := v.(headers := v.headers + [ph]);
      var k1 := Touch(k, f.id, w);
      if f.id.CommittingView? {
        CommittingTouchKeyed(k, w);
      } else {
        TouchKeyed(k, f.id, w);
        var k2 := BackfillCommitting(signed, k1, ph.header.prevCommit).value;
        assert Keyed(k2);
        if f.id.VotingView? && ph.header.hash in k2.voting.precommits.proofs {
          CheckShiftKeyed(k2, VotingView, Precommit);
        }
      }
    }
  }

  lemma LocalVoteKeyed(signed: set<Vote>, k: K, kind: Kind, hash: Hash, i: nat)
    requires Aligned(k) && Keyed(k) && LocalVote(signed, k, kind, hash, i).Ok?
    ensures Keyed(LocalVote(signed, k, kind, hash, i).value)
  {
    var f := FindView(k, k.sm.h, k.sm.r);
    if f.Found? && !f.id.NextRoundView? {
      var b := BallotOf(GetView(k, f.id), kind);
      var base := if hash in b.proofs then b.proofs[hash] else Proof(k.voting.vals.keys, {});
      var updates := map[hash := VoteUpdate(base.(bits := base.bits + {i}), Ver(b, hash))];
      if i < |base.keys| && AddVotes(k, kind, k.sm.h, k.sm.r, updates).Ok? {
        assert Open(k, k.sm.h, k.sm.r) ==> UpdatesKeyed(updates, k.voting.vals.keys);
        AddVotesKeyed(k, kind, k.sm.h, k.sm.r, updates);
      }
    }
  }

  /** Voting only moves on, so what is open later was open before, over the same validators. */
  lemma OpenBefore(k: K, k': K, h: nat, r: nat)
    requires Aligned(k) && Aligned(k') && Follows(k, k') && Open(k', h, r) && HRLeq(h, r, k.nextRound.h, k.nextRound.r)
    ensures Open(k, h, r) && k'.voting.vals.keys == k.voting.vals.keys
  {
    assert FollowsAt(k, k', Prevote, h, r);
  }

  lemma PendingStaysKeyed(k: K, k': K, p: Pending)
    requires Aligned(k) && Aligned(k') && Follows(k, k') && PendingOk(k, p) && PendingKeyed(k, p)
    ensures PendingKeyed(k', p)
  {
    if Open(k', p.h, p.r) { OpenBefore(k, k', p.h, p.r); }
  }

  lemma LookupKeyed(signed: set<Vote>, m: Mirror, e: Event)
    requires Aligned(m.k) && MirrorKeyed(m) && e.Lookup? && DoLookup(signed, m, e).Ok?
    ensures MirrorKeyed(DoLookup(signed, m, e).value)
  {
  }

  lemma KernelStepKeyed(signed: set<Vote>, m: Mirror, e: Event)
    requires Aligned(m.k) && MirrorKeyed(m) && !e.Lookup? && Step(signed, m, e).Ok?
    ensures Keyed(Step(signed, m, e).value.k)
  {
    match e {
      case Submit(id) =>
        if id in m.pending {
          var p := m.pending[id];
          AddVotesKeyed(m.k, p.kind, p.h, p.r, p.updates);
        }
      case NewHeader(ph) =>
        if ph.header.height > 0 { AddHeaderKeyed(signed, m.k, ph); }
      case SMVote(kind, hash, i) => LocalVoteKeyed(signed, m.k, kind, hash, i);
      case _ =>
    }
  }

  lemma StepKeyed(signed: set<Vote>, m: Mirror, e: Event)
    requires MirrorOk(m) && MirrorKeyed(m) && Forward(m, e) && Step(signed, m, e).Ok?
    ensures MirrorKeyed(Step(signed, m, e).value)
  {
    if e.Lookup? {
      LookupKeyed(signed, m, e);
    } else {
      KernelStepKeyed(signed, m, e);
      StepOk(signed, m, e);
      PendingSubset(signed, m, e);
      var m' := Step(signed, m, e).value;
      forall id | id in m'.pending ensures PendingKeyed(m'.k, m'.pending[id]) {
        assert PendingOk(m.k, m.pending[id]);
        PendingStaysKeyed(m.k, m'.k, m.pending[id]);
      }
    }
  }

  /** In every reachable state the proofs of the two open rounds are over their view's validators. */
  lemma {:induction false} RunKeyed(initialHeight: nat, vals: ValSet, es: seq<Input>, j: nat)
    requires initialHeight > 0 && j <= |es| && ForwardRun(Start(initialHeight, vals), es)
    requires Run(Start(initialHeight, vals), es[..j]).Ok?
    ensures MirrorKeyed(Run(Start(initialHeight, vals), es[..j]).value)
  {
    var m := Start(initialHeight, vals);
    if j > 0 {
      RunNext(m, es, j - 1);
      RunKeyed(initialHeight, vals, es, j - 1);
      RunKeeps(initialHeight, vals, es, j - 1);
      assert ForwardAt(m, es, j - 1);
      StepKeyed(es[j - 1].signed, Run(m, es[..j - 1]).value, es[j - 1].event);
    }
  }

  // ----- What a handler prepares -----

  /** The claim is of a validator of the view, who really voted so. */
  predicate GoodClaim(signed: set<Vote>, v: View, kind: Kind, claims: map<Hash, set<nat>>, hash: Hash, i: nat) {
    hash in claims && i in claims[hash] && i < |v.vals.keys| && Vote(kind, v.vals.keys[i], v.h, v.r, hash) in signed
  }

  predicate HeldOver(v: View, kind: Kind, hash: Hash) {
    hash in BallotOf(v, kind).proofs ==> ProofKeyed(BallotOf(v, kind).proofs[hash], v.vals.keys)
  }

  /** Every good claim is held or in the update for its block; and an update holds the old signers and good
    claims, nobody else, over the view's validators and with the version it was prepared for. */
  lemma PreparedExactly(signed: set<Vote>, v: View, kind: Kind, claims: map<Hash, set<nat>>, hash: Hash)
    requires HeldOver(v, kind, hash)
    ensures
      var updates := PrepareUpdates(signed, v, kind, claims);
      var held := Signers(BallotOf(v, kind), hash);
      && (forall i :: GoodClaim(signed, v, kind, claims, hash, i) ==>
            i in held || (hash in updates && i in updates[hash].proof.bits))
      && (hash in updates ==>
            && (forall i :: i in updates[hash].proof.bits <==> i in held || GoodClaim(signed, v, kind, claims, hash, i))
            && updates[hash].proof.keys == v.vals.keys
            && updates[hash].prevVersion == Ver(BallotOf(v, kind), hash))
  {
    var b := BallotOf(v, kind);
    var base := BaseProof(v, kind, hash);
    assert base.keys == v.vals.keys && base.bits == Signers(b, hash);
    if hash in claims {
      forall i | i in claims[hash] && i < |v.vals.keys| && i !in Signers(b, hash) ensures i in Missing(v, kind, hash, claims[hash]) {
      }
    }
  }

  // ----- From lookup to the view -----

  /** An accepted submission puts all signers of its updates in the view, if that is still live. */
  lemma AcceptedHolds(k: K, p: Pending, hash: Hash)
    requires Inv(k) && PendingOk(k, p) && hash in p.updates
    requires AddVotes(k, p.kind, p.h, p.r, p.updates).Ok?
    requires AddVotes(k, p.kind, p.h, p.r, p.updates).value.1 == Accepted
    ensures
      var v := LiveView(AddVotes(k, p.kind, p.h, p.r, p.updates).value.0, p.kind, p.h, p.r);
      v.Some? ==> p.updates[hash].proof.bits <= Signers(BallotOf(v.value, p.kind), hash)
  {
    AcceptedShape(k, p.kind, p.h, p.r, p.updates);
    var id := FindView(k, p.h, p.r).id;
    StoreVotesKeeps(k, id, p.kind, p.updates);
    StoredSigners(k, id, p.kind, p.updates, hash);
    var k1 := StoreVotes(k, id, p.kind, p.updates).value;
    CheckShiftFollows(k1, id, p.kind);
    var k2 := CheckShift(k1, id, p.kind).value;
    FoundViewMatches(k, p.h, p.r);
    LiveStays(k, k1, id, p.kind, p.h, p.r);
    if LiveView(k2, p.kind, p.h, p.r).Some? {
      StoreVotesFrontier(k, id, p.kind, p.updates);
      GoneStaysGone(k1, k2, p.kind, p.h, p.r);
      LiveSignersGrow(k1, k2, p.kind, p.h, p.r, hash);
    }
  }

  /** Neither a lookup nor a submission of this handler. */
  predicate NotOf(e: Event, id: nat) {
    !(e.Lookup? && e.id == id) && !(e.Submit? && e.id == id)
  }

  lemma PendingKept(signed: set<Vote>, m: Mirror, e: Event, id: nat)
    requires id in m.pending && NotOf(e, id) && Step(signed, m, e).Ok?
    ensures id in Step(signed, m, e).value.pending && Step(signed, m, e).value.pending[id] == m.pending[id]
  {
  }

  ghost predicate KeptPending(m: Mirror, m': Mirror, id: nat) {
    id in m.pending ==> id in m'.pending && m'.pending[id] == m.pending[id]
  }

  lemma {:induction false} PendingLasts(initialHeight: nat, vals: ValSet, es: seq<Input>, i: nat, j: nat, id: nat)
    requires i <= j <= |es| && Run(Start(initialHeight, vals), es[..j]).Ok? && Run(Start(initialHeight, vals), es[..i]).Ok?
    requires forall t :: i <= t < j ==> NotOf(es[t].event, id)
    ensures KeptPending(Run(Start(initialHeight, vals), es[..i]).value, Run(Start(initialHeight, vals), es[..j]).value, id)
    decreases j
  {
    if i < j {
      var m := Start(initialHeight, vals);
      RunNext(m, es, j - 1);
      PendingLasts(initialHeight, vals, es, i, j - 1, id);
      var mj := Run(m, es[..j - 1]).value;
      if id in mj.pending { PendingKept(es[j - 1].signed, mj, es[j - 1].event, id); }
    }
  }

  /** The handler's lookup finds a round of the keys it expects. */
  predicate LooksUp(m: Mirror, e: Event) {
    e.Lookup? && FindView(m.k, e.h, e.r).Found? && e.keys == FoundView(m.k, e.h, e.r).vals.keys
  }

  function FoundView(k: K, h: nat, r: nat): View
    requires FindView(k, h, r).Found?
  {
    GetView(k, FindView(k, h, r).id)
  }

  /** A peer whose votes are over other keys is not listened to. */
  lemma OtherKeysRefused(signed: set<Vote>, m: Mirror, e: Event)
    requires e.Lookup? && FindView(m.k, e.h, e.r).Found? && e.keys != GetView(m.k, FindView(m.k, e.h, e.r).id).vals.keys
    ensures Step(signed, m, e) == Ok(m)
  {
  }

  /** A lookup leaves the good claims held, or in the update it prepares. */
  lemma LookupPrepares(signed: set<Vote>, m: Mirror, e: Event, hash: Hash, x: nat)
    requires Aligned(m.k) && Keyed(m.k) && LooksUp(m, e)
    requires Open(m.k, e.h, e.r) || HeldOver(FoundView(m.k, e.h, e.r), e.kind, hash)
    requires GoodClaim(signed, FoundView(m.k, e.h, e.r), e.kind, e.claims, hash, x)
    ensures Step(signed, m, e).Ok?
    ensures
      var m1 := Step(signed, m, e).value;
      var v := FoundView(m.k, e.h, e.r);
      || x in Signers(BallotOf(v, e.kind), hash)
      || (&& e.id in m1.pending && hash in m1.pending[e.id].updates && x in m1.pending[e.id].updates[hash].proof.bits
          && m1.pending[e.id].kind == e.kind && m1.pending[e.id].h == e.h && m1.pending[e.id].r == e.r)
  {
    var v := FoundView(m.k, e.h, e.r);
    PreparedExactly(signed, v, e.kind, e.claims, hash);
  }

  /** From claims to votes: a handler looks a round up with a peer's claims - an open round, or the committing
    one where its proof is over the round's own validators - and later submits. Unless it is told otherwise,
    every claimed signature that is valid is in the view from then on, for as long as the view is live. */
  lemma ClaimsArrive(initialHeight: nat, vals: ValSet, es: seq<Input>, i: nat, j: nat, n: nat, hash: Hash, x: nat)
    requires initialHeight > 0 && i < j < n <= |es| && ForwardRun(Start(initialHeight, vals), es)
    requires Run(Start(initialHeight, vals), es[..n]).Ok? && Run(Start(initialHeight, vals), es[..i]).Ok?
    requires Run(Start(initialHeight, vals), es[..j]).Ok?
    requires LooksUp(Run(Start(initialHeight, vals), es[..i]).value, es[i].event)
    requires
      var k, e := Run(Start(initialHeight, vals), es[..i]).value.k, es[i].event;
      Open(k, e.h, e.r) || HeldOver(FoundView(k, e.h, e.r), e.kind, hash)
    requires es[j].event == Submit(es[i].event.id) && (forall t :: i < t < j ==> NotOf(es[t].event, es[i].event.id))
    requires
      var mj := Run(Start(initialHeight, vals), es[..j]).value;
      es[i].event.id in mj.pending ==> AcceptsSubmission(mj, es[i].event.id)
    requires
      var e := es[i].event;
      GoodClaim(es[i].signed, FoundView(Run(Start(initialHeight, vals), es[..i]).value.k, e.h, e.r), e.kind, e.claims, hash, x)
    ensures
      var e := es[i].event;
      var v := LiveView(Run(Start(initialHeight, vals), es[..n]).value.k, e.kind, e.h, e.r);
      v.Some? ==> x in Signers(BallotOf(v.value, e.kind), hash)
  {
    var m, e := Start(initialHeight, vals), es[i].event;
    RunKeyed(initialHeight, vals, es, i);
    RunKeeps(initialHeight, vals, es, i);
    var mi := Run(m, es[..i]).value;
    LookupPrepares(es[i].signed, mi, e, hash, x);
    if x in Signers(BallotOf(FoundView(mi.k, e.h, e.r), e.kind), hash) {
      NoLostVotes(initialHeight, vals, es, i, n, e.kind, e.h, e.r, hash);
      HeldIsLive(mi.k, e.kind, e.h, e.r, hash, x);
    } else {
      RunFollows(initialHeight, vals, es, i + 1, n);
      RunNext(m, es, i);
      PreparedArrives(initialHeight, vals, es, i, j, n, e.id, hash, x);
    }
    if LiveView(mi.k, e.kind, e.h, e.r).None? {
      RunFollows(initialHeight, vals, es, i, n);
      StaysGone(mi.k, Run(m, es[..n]).value.k, e.kind, e.h, e.r);
    }
  }

  lemma HeldIsLive(k: K, kind: Kind, h: nat, r: nat, hash: Hash, x: nat)
    requires FindView(k, h, r).Found? && x in Signers(BallotOf(FoundView(k, h, r), kind), hash)
    ensures LiveView(k, kind, h, r).Some? ==> x in Signers(BallotOf(LiveView(k, kind, h, r).value, kind), hash)
  {
  }

  lemma StaysGone(k: K, k': K, kind: Kind, h: nat, r: nat)
    requires Inv(k) && Follows(k, k') && FindView(k, h, r).Found? && LiveView(k, kind, h, r).None?
    ensures LiveView(k', kind, h, r).None?
  {
    FoundViewMatches(k, h, r);
    assert FollowsAt(k, k', kind, h, r);
  }

  /** What is prepared arrives with the accepted submission. */
  lemma PreparedArrives(initialHeight: nat, vals: ValSet, es: seq<Input>, i: nat, j: nat, n: nat, id: nat, hash: Hash, x: nat)
    requires initialHeight > 0 && i < j < n <= |es| && ForwardRun(Start(initialHeight, vals), es)
    requires Run(Start(initialHeight, vals), es[..n]).Ok? && Run(Start(initialHeight, vals), es[..i + 1]).Ok?
    requires Run(Start(initialHeight, vals), es[..j]).Ok?
    requires es[j].event == Submit(id) && (forall t :: i < t < j ==> NotOf(es[t].event, id))
    requires
      var mj := Run(Start(initialHeight, vals), es[..j]).value;
      id in mj.pending ==> AcceptsSubmission(mj, id)
    requires
      var m1 := Run(Start(initialHeight, vals), es[..i + 1]).value;
      id in m1.pending && hash in m1.pending[id].updates && x in m1.pending[id].updates[hash].proof.bits
    ensures
      var p := Run(Start(initialHeight, vals), es[..i + 1]).value.pending[id];
      var v := LiveView(Run(Start(initialHeight, vals), es[..n]).value.k, p.kind, p.h, p.r);
      v.Some? ==> x in Signers(BallotOf(v.value, p.kind), hash)
  {
    PendingLasts(initialHeight, vals, es, i + 1, j, id);
    SubmittedStays(initialHeight, vals, es, j, n, hash);
  }

  /** What an accepted submission holds stays. */
  lemma SubmittedStays(initialHeight: nat, vals: ValSet, es: seq<Input>, j: nat, n: nat, hash: Hash)
    requires initialHeight > 0 && j < n <= |es| && ForwardRun(Start(initialHeight, vals), es)
    requires Run(Start(initialHeight, vals), es[..n]).Ok? && Run(Start(initialHeight, vals), es[..j]).Ok?
    requires es[j].event.Submit? && AcceptsSubmission(Run(Start(initialHeight, vals), es[..j]).value, es[j].event.id)
    requires hash in Run(Start(initialHeight, vals), es[..j]).value.pending[es[j].event.id].updates
    ensures
      var p := Run(Start(initialHeight, vals), es[..j]).value.pending[es[j].event.id];
      var v := LiveView(Run(Start(initialHeight, vals), es[..n]).value.k, p.kind, p.h, p.r);
      v.Some? ==> p.updates[hash].proof.bits <= Signers(BallotOf(v.value, p.kind), hash)
  {
    var m := Start(initialHeight, vals);
    RunFollows(initialHeight, vals, es, j, n);
    RunFollows(initialHeight, vals, es, j + 1, n);
    RunFollows(initialHeight, vals, es, j, j + 1);
    RunNext(m, es, j);
    var mj, m1, mn := Run(m, es[..j]).value, Run(m, es[..j + 1]).value, Run(m, es[..n]).value;
    var p := mj.pending[es[j].event.id];
    assert PendingOk(mj.k, p);
    AcceptedHolds(mj.k, p, hash);
    if LiveView(mn.k, p.kind, p.h, p.r).Some? {
      StepOkFrontier(mj, m1, p.h, p.r);
      GoneStaysGone(m1.k, mn.k, p.kind, p.h, p.r);
      LiveSignersGrow(m1.k, mn.k, p.kind, p.h, p.r, hash);
    }
  }
}
