/** One mirror: the kernel and any number of concurrent proof handlers. A handler looks a view up,
  merges signatures into its own copy outside the kernel, and submits the result with the block
  versions it saw. */
module MirrorSystem {
  import opened Options
  import opened Quorum
  import opened Votes
  import opened Views
  import opened KernelSpec
  import opened KernelInv

  /** A handler between its lookup and its submission. `merged` records the valid signers it merged. */
  datatype Pending = Pending(kind: Kind, h: nat, r: nat, updates: map<Hash, VoteUpdate>, merged: map<Hash, set<nat>>)

  datatype Mirror = Mirror(k: K, pending: map<nat, Pending>)

  datatype Event =
    | Lookup(id: nat, kind: Kind, h: nat, r: nat, keys: seq<Key>, claims: map<Hash, set<nat>>)
    | Submit(id: nat)
    | NewHeader(ph: ProposedHeader)
    | SMEnter(eh: nat, er: nat, key: Option<Key>)
    | SMVote(vkind: Kind, hash: Hash, i: nat)
    | SMSend
    | GossipSend

  function BaseProof(v: View, kind: Kind, hash: Hash): Proof {
    var b := BallotOf(v, kind);
    if hash in b.proofs then b.proofs[hash] else Proof(v.vals.keys, {})
  }

  /** The claimed indices that are in range and not yet signed for. */
  function Missing(v: View, kind: Kind, hash: Hash, claim: set<nat>): set<nat> {
    set i | i in claim && i < |BaseProof(v, kind, hash).keys| && i !in Signers(BallotOf(v, kind), hash)
  }

  /** getSignaturesToAdd: per block, the claimed signatures that could be new. */
  function SigsToAdd(v: View, kind: Kind, claims: map<Hash, set<nat>>): map<Hash, set<nat>> {
    map hash | hash in claims && Missing(v, kind, hash, claims[hash]) != {} :: Missing(v, kind, hash, claims[hash])
  }

  ghost function PrepareUpdates(signed: set<Vote>, v: View, kind: Kind, claims: map<Hash, set<nat>>): map<Hash, VoteUpdate> {
    var toAdd := SigsToAdd(v, kind, claims);
    map hash | hash in toAdd ::
      VoteUpdate(MergeSparse(signed, BaseProof(v, kind, hash), kind, v.h, v.r, hash, toAdd[hash]), Ver(BallotOf(v, kind), hash))
  }

  ghost function MergedSigners(signed: set<Vote>, v: View, kind: Kind, claims: map<Hash, set<nat>>): map<Hash, set<nat>> {
    var toAdd := SigsToAdd(v, kind, claims);
    map hash | hash in toAdd :: Verified(signed, BaseProof(v, kind, hash), kind, v.h, v.r, hash, toAdd[hash])
  }

  /** The first half of a handler. Nothing is pending when there is nothing to submit. */
  ghost function DoLookup(signed: set<Vote>, m: Mirror, e: Event): Outcome<Mirror>
    requires e.Lookup?
  {
    match FindView(m.k, e.h, e.r)
    case Unhandled => Stuck
    case Found(id) =>
      var v := GetView(m.k, id);
      if e.keys != v.vals.keys || SigsToAdd(v, e.kind, e.claims) == map[] then Ok(m)
      else
        Ok(m.(pending := m.pending[e.id :=
          Pending(e.kind, e.h, e.r, PrepareUpdates(signed, v, e.kind, e.claims), MergedSigners(signed, v, e.kind, e.claims))]))
    case _ => Ok(m)
  }

  ghost function OnKernel(m: Mirror, o: Outcome<K>): Outcome<Mirror> {
    match o case Stuck => Stuck case Ok(k) => Ok(m.(k := k))
  }

  ghost function Step(signed: set<Vote>, m: Mirror, e: Event): Outcome<Mirror> {
    match e
    case Lookup(_, _, _, _, _, _) => DoLookup(signed, m, e)
    case Submit(id) =>
      if id !in m.pending then Ok(m)
      else
        var p := m.pending[id];
        (match AddVotes(m.k, p.kind, p.h, p.r, p.updates)
         case Stuck => Stuck
         case Ok(res) => Ok(Mirror(res.0, m.pending - {id})))
    case NewHeader(ph) => if ph.header.height == 0 then Ok(m) else OnKernel(m, AddHeader(signed, m.k, ph))
    case SMEnter(h, r, key) => OnKernel(m, Enter(m.k, h, r, key))
    case SMVote(kind, hash, i) => OnKernel(m, LocalVote(signed, m.k, kind, hash, i))
    case SMSend => Ok(m.(k := MarkSMSent(m.k)))
    case GossipSend => Ok(m.(k := SendGossip(m.k)))
  }

  /** The local state machine only ever moves forward. */
  predicate Forward(m: Mirror, e: Event) {
    e.SMEnter? ==> HRLess(m.k.sm.h, m.k.sm.r, e.eh, e.er) && e.eh > 0
  }

  // ----- What a view's votes do over time -----

  /** The view of a height and round, where updates of this kind cannot be lost: prevotes in all
    three views, precommits until the round is committing (see BackfillIsOverwritten). */
  function LiveView(k: K, kind: Kind, h: nat, r: nat): Option<View> {
    match FindView(k, h, r)
    case Found(id) => if kind.Precommit? && id.CommittingView? then None else Some(GetView(k, id))
    case _ => None
  }

  /** Signers are only added, versions only grow, and an unchanged version means an unchanged proof. */
  ghost predicate Grows(b: Ballot, c: Ballot) {
    forall hash :: GrowsAt(b, c, hash)
  }

  ghost predicate GrowsAt(b: Ballot, c: Ballot, hash: Hash) {
    && Signers(b, hash) <= Signers(c, hash)
    && Ver(b, hash) <= Ver(c, hash)
    && (Ver(b, hash) == Ver(c, hash) ==> Signers(b, hash) == Signers(c, hash))
  }

  ghost predicate FollowsAt(k: K, k': K, kind: Kind, h: nat, r: nat) {
    match LiveView(k, kind, h, r)
    case Some(v) =>
      (match LiveView(k', kind, h, r)
       case Some(w) => w.vals == v.vals && Grows(BallotOf(v, kind), BallotOf(w, kind))
       case None => true)
    case None => HRLeq(h, r, k.nextRound.h, k.nextRound.r) ==> LiveView(k', kind, h, r).None?
  }

  /** `k'` is a later state of `k`: live views keep what they have until they are gone, and what is
    gone never comes back. */
  ghost predicate Follows(k: K, k': K) {
    && k'.initialHeight == k.initialHeight
    && HRLeq(k.voting.h, k.voting.r, k'.voting.h, k'.voting.r)
    && forall kind, h, r :: FollowsAt(k, k', kind, h, r)
  }

  lemma FollowsRefl(k: K)
    ensures Follows(k, k)
  {
  }

  lemma FollowsTrans(k1: K, k2: K, k3: K)
    requires Aligned(k1) && Aligned(k2) && Follows(k1, k2) && Follows(k2, k3)
    ensures Follows(k1, k3)
  {
    forall kind, h, r ensures FollowsAt(k1, k3, kind, h, r) {
      assert FollowsAt(k1, k2, kind, h, r) && FollowsAt(k2, k3, kind, h, r);
      var o1, o2, o3 := LiveView(k1, kind, h, r), LiveView(k2, kind, h, r), LiveView(k3, kind, h, r);
      if o1.Some? && o3.Some? {
        if o2.None? {
          LiveWithinFrontier(k1, kind, h, r);
          assert false;
        }
        var b1, b2, b3 := BallotOf(o1.value, kind), BallotOf(o2.value, kind), BallotOf(o3.value, kind);
        forall hash ensures GrowsAt(b1, b3, hash) {
          assert GrowsAt(b1, b2, hash) && GrowsAt(b2, b3, hash);
        }
      }
    }
  }

  lemma LiveWithinFrontier(k: K, kind: Kind, h: nat, r: nat)
    requires Aligned(k) && LiveView(k, kind, h, r).Some?
    ensures HRLeq(h, r, k.nextRound.h, k.nextRound.r)
    ensures Matches(LiveView(k, kind, h, r).value, h, r)
  {
  }

  lemma TouchFollows(k: K, id: ViewId, w: View)
    requires Aligned(k) && SameStamp(GetView(k, id), w)
    requires Grows(GetView(k, id).prevotes, w.prevotes)
    requires !id.CommittingView? ==> Grows(GetView(k, id).precommits, w.precommits)
    ensures Follows(k, Touch(k, id, w))
  {
    forall kind, h, r ensures FollowsAt(k, Touch(k, id, w), kind, h, r) {
    }
  }

  lemma IncrementFollows(k: K)
    requires Aligned(k)
    ensures Follows(k, IncrementRound(k))
  {
    forall kind, h, r ensures FollowsAt(k, IncrementRound(k), kind, h, r) {
    }
  }

  lemma ShiftFollows(k: K, header: Header)
    requires Aligned(k)
    ensures Follows(k, ShiftToCommitting(k, header))
  {
    forall kind, h, r ensures FollowsAt(k, ShiftToCommitting(k, header), kind, h, r) {
    }
  }

  lemma SameViewsFollow(k: K, k': K)
    requires k'.committing == k.committing && k'.voting == k.voting && k'.nextRound == k.nextRound
    requires k'.initialHeight == k.initialHeight
    ensures Follows(k, k')
  {
  }

  lemma JumpFollows(k: K)
    requires Aligned(k)
    ensures Follows(k, JumpRound(k))
  {
    IncrementFollows(k);
    var k1 := IncrementRound(k);
    forall kind, h, r ensures FollowsAt(k, JumpRound(k), kind, h, r) {
      assert FollowsAt(k, k1, kind, h, r);
    }
  }

  lemma AdvanceFollows(k: K)
    requires Aligned(k)
    ensures Follows(k, AdvanceRound(k))
  {
    var k0 := k.(nilVoted := Some(k.voting));
    IncrementFollows(k0);
    forall kind, h, r ensures FollowsAt(k, AdvanceRound(k), kind, h, r) {
      assert FollowsAt(k0, AdvanceRound(k), kind, h, r);
    }
  }

  lemma CheckVotingShiftFollows(k: K)
    requires Aligned(k) && CheckVotingShift(k).Ok?
    ensures Follows(k, CheckVotingShift(k).value)
  {
    var hash := k.voting.summary.precommits.mostVoted;
    AdvanceFollows(k);
    FollowsRefl(k);
    match FindHeader(k.voting.headers, hash) {
      case None =>
      case Some(header) =>
        var k0 := k.(log := k.log + [CommitRecord(k.voting, hash)]);
        ShiftFollows(k0, header);
        forall kind, h, r ensures FollowsAt(k, ShiftToCommitting(k0, header), kind, h, r) {
          assert FollowsAt(k0, ShiftToCommitting(k0, header), kind, h, r);
        }
    }
  }

  lemma CheckShiftFollows(k: K, id: ViewId, kind: Kind)
    requires Aligned(k) && CheckShift(k, id, kind).Ok?
    ensures Follows(k, CheckShift(k, id, kind).value)
  {
    FollowsRefl(k);
    JumpFollows(k);
    if id.VotingView? && kind.Precommit? {
      CheckVotingShiftFollows(k);
    }
  }

  /** Updates that lose nobody where they apply. */
  ghost predicate LosesNobody(b: Ballot, updates: map<Hash, VoteUpdate>) {
    forall hash :: hash in updates && Applies(b, updates, hash) ==> Signers(b, hash) <= updates[hash].proof.bits
  }

  lemma ApplyGrows(b: Ballot, updates: map<Hash, VoteUpdate>)
    requires LosesNobody(b, updates)
    ensures Grows(b, ApplyUpdates(b, updates))
  {
    forall hash ensures GrowsAt(b, ApplyUpdates(b, updates), hash) {
    }
  }

  lemma StoreVotesFollows(k: K, id: ViewId, kind: Kind, updates: map<Hash, VoteUpdate>)
    requires Inv(k) && StoreVotes(k, id, kind, updates).Ok?
    requires !(kind.Precommit? && id.CommittingView?) ==> LosesNobody(BallotOf(GetView(k, id), kind), updates)
    ensures Follows(k, StoreVotes(k, id, kind, updates).value)
  {
    var v := GetView(k, id);
    var b := BallotOf(v, kind);
    FollowsRefl(k);
    if AnyApplies(b, updates) {
      var w := Resummarize(WithBallot(v, kind, ApplyUpdates(b, updates)), kind);
      if !(kind.Precommit? && id.CommittingView?) {
        ApplyGrows(b, updates);
      }
      TouchFollows(k, id, w);
    }
  }

  lemma AddVotesFollows(k: K, kind: Kind, h: nat, r: nat, updates: map<Hash, VoteUpdate>)
    requires Inv(k) && AddVotes(k, kind, h, r, updates).Ok?
    requires LiveView(k, kind, h, r).Some? ==> LosesNobody(BallotOf(LiveView(k, kind, h, r).value, kind), updates)
    ensures Follows(k, AddVotes(k, kind, h, r, updates).value.0)
  {
    var f := FindView(k, h, r);
    FollowsRefl(k);
    if f.Found? {
      StoreVotesFollows(k, f.id, kind, updates);
      StoreVotesKeeps(k, f.id, kind, updates);
      var k1 := StoreVotes(k, f.id, kind, updates).value;
      if CheckShift(k1, f.id, kind).Ok? {
        CheckShiftFollows(k1, f.id, kind);
        FollowsTrans(k, k1, CheckShift(k1, f.id, kind).value);
      }
    }
  }

  lemma BackfillFollows(signed: set<Vote>, k: K, carried: map<Hash, set<nat>>)
    requires Inv(k) && BackfillCommitting(signed, k, carried).Ok?
    ensures Follows(k, BackfillCommitting(signed, k, carried).value)
  {
    var proofs := Backfill(signed, k.committing, carried);
    FollowsRefl(k);
    if proofs != k.committing.precommits.proofs {
      TouchFollows(k, CommittingView, k.committing.(precommits := k.committing.precommits.(proofs := proofs)));
    }
  }

  lemma AddHeaderFollows(signed: set<Vote>, k: K, ph: ProposedHeader)
    requires Inv(k) && ph.header.height > 0 && AddHeader(signed, k, ph).Ok?
    ensures Follows(k, AddHeader(signed, k, ph).value)
  {
    var f := FindView(k, ph.header.height, ph.round);
    FollowsRefl(k);
    if f.Found? && !HasSignature(GetView(k, f.id).headers, ph.sig) {
      var v := GetView(k, f.id);
      var w := v.(headers := v.headers + [ph]);
      TouchKeeps(k, f.id, w);
      TouchFollows(k, f.id, w);
      var k1 := Touch(k, f.id, w);
      if !f.id.CommittingView? {
        BackfillKeeps(signed, k1, ph.header.prevCommit);
        BackfillFollows(signed, k1, ph.header.prevCommit);
        var k2 := BackfillCommitting(signed, k1, ph.header.prevCommit).value;
        FollowsTrans(k, k1, k2);
        if f.id.VotingView? && ph.header.hash in k2.voting.precommits.proofs {
          CheckVotingShiftFollows(k2);
          FollowsTrans(k, k2, CheckVotingShift(k2).value);
        }
      }
    }
  }

  lemma LocalVoteFollows(signed: set<Vote>, k: K, kind: Kind, hash: Hash, i: nat)
    requires Inv(k) && LocalVote(signed, k, kind, hash, i).Ok?
    ensures Follows(k, LocalVote(signed, k, kind, hash, i).value)
  {
    var f := FindView(k, k.sm.h, k.sm.r);
    FollowsRefl(k);
    if f.Found? && !f.id.NextRoundView? {
      var b := BallotOf(GetView(k, f.id), kind);
      var base := if hash in b.proofs then b.proofs[hash] else Proof(k.voting.vals.keys, {});
      var updates := map[hash := VoteUpdate(base.(bits := base.bits + {i}), Ver(b, hash))];
      assert LosesNobody(b, updates);
      if AddVotes(k, kind, k.sm.h, k.sm.r, updates).Ok? {
        AddVotesFollows(k, kind, k.sm.h, k.sm.r, updates);
      }
    }
  }

  // ----- Handlers -----

  /** What a handler holds is still usable: its versions are not ahead, and where a version is still
    the current one, its proof contains everybody the view has. */
  ghost predicate PendingOk(k: K, p: Pending) {
    && HRLeq(p.h, p.r, k.nextRound.h, k.nextRound.r)
    && (LiveView(k, p.kind, p.h, p.r).Some? ==>
          forall hash :: hash in p.updates ==> UpdateOk(BallotOf(LiveView(k, p.kind, p.h, p.r).value, p.kind), p, hash))
    && p.merged.Keys == p.updates.Keys
    && forall hash :: hash in p.updates ==> p.merged[hash] <= p.updates[hash].proof.bits
  }

  ghost predicate UpdateOk(b: Ballot, p: Pending, hash: Hash)
    requires hash in p.updates
  {
    && p.updates[hash].prevVersion <= Ver(b, hash)
    && (p.updates[hash].prevVersion == Ver(b, hash) ==> Signers(b, hash) <= p.updates[hash].proof.bits)
  }

  ghost predicate MirrorOk(m: Mirror) {
    Inv(m.k) && forall id :: id in m.pending ==> PendingOk(m.k, m.pending[id])
  }

  lemma PendingFollows(k: K, k': K, p: Pending)
    requires Aligned(k) && Aligned(k') && Follows(k, k') && PendingOk(k, p)
    ensures PendingOk(k', p)
  {
    assert FollowsAt(k, k', p.kind, p.h, p.r);
    if LiveView(k', p.kind, p.h, p.r).Some? {
      var b, c := BallotOf(LiveView(k, p.kind, p.h, p.r).value, p.kind), BallotOf(LiveView(k', p.kind, p.h, p.r).value, p.kind);
      forall hash | hash in p.updates ensures UpdateOk(c, p, hash) {
        assert UpdateOk(b, p, hash) && GrowsAt(b, c, hash);
      }
    }
  }

  lemma PreparedOk(signed: set<Vote>, k: K, kind: Kind, h: nat, r: nat, claims: map<Hash, set<nat>>)
    requires Inv(k) && FindView(k, h, r).Found?
    ensures var v := GetView(k, FindView(k, h, r).id);
            PendingOk(k, Pending(kind, h, r, PrepareUpdates(signed, v, kind, claims), MergedSigners(signed, v, kind, claims)))
  {
    var v := GetView(k, FindView(k, h, r).id);
    var p := Pending(kind, h, r, PrepareUpdates(signed, v, kind, claims), MergedSigners(signed, v, kind, claims));
    forall hash | hash in p.updates
      ensures UpdateOk(BallotOf(v, kind), p, hash) && p.merged[hash] <= p.updates[hash].proof.bits
    {
      assert p.updates[hash].proof.bits == BaseProof(v, kind, hash).bits + p.merged[hash];
    }
  }

  lemma LookupOk(signed: set<Vote>, m: Mirror, e: Event)
    requires MirrorOk(m) && e.Lookup? && DoLookup(signed, m, e).Ok?
    ensures MirrorOk(DoLookup(signed, m, e).value) && DoLookup(signed, m, e).value.k == m.k
  {
    if FindView(m.k, e.h, e.r).Found? {
      PreparedOk(signed, m.k, e.kind, e.h, e.r, e.claims);
    }
  }

  lemma SubmitOk(m: Mirror, id: nat)
    requires MirrorOk(m) && id in m.pending
    requires var p := m.pending[id]; AddVotes(m.k, p.kind, p.h, p.r, p.updates).Ok?
    ensures var p := m.pending[id]; var k' := AddVotes(m.k, p.kind, p.h, p.r, p.updates).value.0;
            Inv(k') && Follows(m.k, k')
  {
    var p := m.pending[id];
    SubmitLosesNobody(m, id);
    AddVotesKeeps(m.k, p.kind, p.h, p.r, p.updates);
    AddVotesFollows(m.k, p.kind, p.h, p.r, p.updates);
  }

  ghost predicate Moves(k: K, k': K) {
    Inv(k') && Follows(k, k')
  }

  lemma HeaderMoves(signed: set<Vote>, k: K, ph: ProposedHeader)
    requires Inv(k) && ph.header.height > 0 && AddHeader(signed, k, ph).Ok?
    ensures Moves(k, AddHeader(signed, k, ph).value)
  {
    AddHeaderKeeps(signed, k, ph);
    AddHeaderFollows(signed, k, ph);
  }

  lemma EnterMoves(k: K, h: nat, r: nat, key: Option<Key>)
    requires Inv(k) && HRLess(k.sm.h, k.sm.r, h, r) && h > 0 && Enter(k, h, r, key).Ok?
    ensures Moves(k, Enter(k, h, r, key).value)
  {
    EnterKeeps(k, h, r, key);
    SameViewsFollow(k, Enter(k, h, r, key).value);
  }

  lemma LocalVoteMoves(signed: set<Vote>, k: K, kind: Kind, hash: Hash, i: nat)
    requires Inv(k) && LocalVote(signed, k, kind, hash, i).Ok?
    ensures Moves(k, LocalVote(signed, k, kind, hash, i).value)
  {
    LocalVoteKeeps(signed, k, kind, hash, i);
    LocalVoteFollows(signed, k, kind, hash, i);
  }

  lemma SendsMove(k: K)
    requires Inv(k)
    ensures Moves(k, MarkSMSent(k)) && Moves(k, SendGossip(k))
  {
    MarkSMSentKeeps(k);
    SameViewsFollow(k, MarkSMSent(k));
    SendGossipKeeps(k);
    SameViewsFollow(k, SendGossip(k));
  }

  /** The kernel part of StepOk. */
  lemma StepKernelOk(signed: set<Vote>, m: Mirror, e: Event)
    requires MirrorOk(m) && Forward(m, e) && Step(signed, m, e).Ok? && !e.Lookup?
    ensures Inv(Step(signed, m, e).value.k)
    ensures Follows(m.k, Step(signed, m, e).value.k)
  {
    FollowsRefl(m.k);
    match e {
      case Submit(id) =>
        if id in m.pending { SubmitOk(m, id); }
      case NewHeader(ph) =>
        if ph.header.height > 0 { HeaderMoves(signed, m.k, ph); }
      case SMEnter(h, r, key) => EnterMoves(m.k, h, r, key);
      case SMVote(kind, hash, i) => LocalVoteMoves(signed, m.k, kind, hash, i);
      case SMSend => SendsMove(m.k);
      case GossipSend => SendsMove(m.k);
    }
  }

  /** Every step keeps the kernel's invariants and the handlers usable, and only ever moves on. */
  lemma StepOk(signed: set<Vote>, m: Mirror, e: Event)
    requires MirrorOk(m) && Forward(m, e) && Step(signed, m, e).Ok?
    ensures MirrorOk(Step(signed, m, e).value)
    ensures Follows(m.k, Step(signed, m, e).value.k)
  {
    if e.Lookup? {
      LookupOk(signed, m, e);
      FollowsRefl(m.k);
    } else {
      StepKernelOk(signed, m, e);
      PendingSubset(signed, m, e);
      var m' := Step(signed, m, e).value;
      forall id | id in m'.pending ensures PendingOk(m'.k, m'.pending[id]) {
        PendingFollows(m.k, m'.k, m.pending[id]);
      }
    }
  }

  lemma PendingSubset(signed: set<Vote>, m: Mirror, e: Event)
    requires !e.Lookup? && Step(signed, m, e).Ok?
    ensures forall id :: id in Step(signed, m, e).value.pending ==>
              id in m.pending && Step(signed, m, e).value.pending[id] == m.pending[id]
  {
  }

  lemma SubmitLosesNobody(m: Mirror, id: nat)
    requires MirrorOk(m) && id in m.pending
    ensures var p := m.pending[id];
            LiveView(m.k, p.kind, p.h, p.r).Some? ==>
              LosesNobody(BallotOf(LiveView(m.k, p.kind, p.h, p.r).value, p.kind), p.updates)
  {
    var p := m.pending[id];
    if LiveView(m.k, p.kind, p.h, p.r).Some? {
      var b := BallotOf(LiveView(m.k, p.kind, p.h, p.r).value, p.kind);
      forall hash | hash in p.updates && Applies(b, p.updates, hash) ensures Signers(b, hash) <= p.updates[hash].proof.bits {
        assert UpdateOk(b, p, hash);
      }
    }
  }
}
