/** The kernel's handlers over its mutable state, and the work a proof handler does outside the kernel.
  A handler either panics or leaves exactly the state the specification gives. */
module Kernel {
  import opened Options
  import opened Quorum
  import opened Votes
  import opened Views
  import opened KStates
  import Spec = KernelSpec
  import MirrorSystem

  /** Whether a panic was hit, and the state otherwise. */
  ghost predicate Yields(panicked: bool, o: Spec.Outcome<Spec.K>, k: Spec.K) {
    (panicked <==> o.Stuck?) && (o.Ok? ==> k == o.value)
  }

  // ----- View shifts -----

  method FindHeader(headers: seq<ProposedHeader>, hash: Hash) returns (found: Option<Header>)
    ensures found == Spec.FindHeader(headers, hash)
  {
    found := None;
    var i := 0;
    while i < |headers|
      invariant i <= |headers|
      invariant found.None? && Spec.FindHeader(headers, hash) == Spec.FindHeader(headers[i..], hash)
    {
      if headers[i].header.hash == hash {
        return Some(headers[i].header);
      }
      assert headers[i..][1..] == headers[i + 1..];
      i := i + 1;
    }
  }

  method CheckVotingPrecommitViewShift(s: KState) returns (panicked: bool)
    modifies s, s.sm, s.gossip
    ensures Yields(panicked, Spec.CheckVotingShift(old(s.Model())), s.Model())
  {
    panicked := false;
    var vs := s.voting.summary;
    if vs.available == 0 {
      return true;
    }
    var maj := ByzantineMajority(vs.available);
    var committingHash := vs.precommits.mostVoted;
    var highestPow := PowerFor(vs.precommits, committingHash);
    if highestPow < maj {
      if vs.precommits.total == vs.available {
        s.AdvanceVotingRound();
      }
      return;
    }
    if committingHash == NIL_HASH {
      s.AdvanceVotingRound();
      return;
    }
    var votedHeader := FindHeader(s.voting.headers, committingHash);
    if votedHeader.None? {
      return;
    }
    s.log := s.log + [Spec.CommitRecord(s.voting, committingHash)];
    s.ShiftVotingToCommitting(votedHeader.value);
  }

  method CheckNextRoundPrecommitViewShift(s: KState) returns (panicked: bool)
    modifies s, s.sm, s.gossip
    ensures Yields(panicked, Spec.CheckNextRoundPrecommits(old(s.Model())), s.Model())
  {
    panicked := false;
    var vs := s.nextRound.summary;
    if vs.available == 0 {
      return true;
    }
    if vs.precommits.total < ByzantineMinority(vs.available) {
      return;
    }
    s.JumpVotingRound();
    var maxPow := PowerFor(vs.precommits, vs.precommits.mostVoted);
    if maxPow >= ByzantineMajority(vs.available) {
      return true;
    }
  }

  method CheckPrevoteViewShift(s: KState) returns (panicked: bool)
    modifies s, s.sm, s.gossip
    ensures Yields(panicked, Spec.CheckNextRoundPrevotes(old(s.Model())), s.Model())
  {
    panicked := false;
    var vs := s.nextRound.summary;
    if vs.available == 0 {
      return true;
    }
    if vs.prevotes.total < ByzantineMinority(vs.available) {
      return;
    }
    s.JumpVotingRound();
  }

  // ----- Votes -----

  /** What the pass has done to one block, while the blocks of `rest` are still to come. */
  ghost predicate SwappedAt(b: Ballot, updates: map<Hash, VoteUpdate>, rest: set<Hash>, c: Ballot, hash: Hash) {
    if hash in updates && hash !in rest && Spec.Applies(b, updates, hash) then
      && hash in c.proofs && c.proofs[hash] == updates[hash].proof
      && hash in c.vers && c.vers[hash] == Ver(b, hash) + 1
    else
      && (hash in c.proofs <==> hash in b.proofs) && (hash in c.proofs ==> c.proofs[hash] == b.proofs[hash])
      && (hash in c.vers <==> hash in b.vers) && (hash in c.vers ==> c.vers[hash] == b.vers[hash])
  }

  /** The compare-and-swap pass, block by block in arbitrary order. The order does not matter. */
  method ApplyVoteUpdates(b: Ballot, updates: map<Hash, VoteUpdate>) returns (c: Ballot, allAccepted: bool, anyAdded: bool)
    ensures c == Spec.ApplyUpdates(b, updates)
    ensures allAccepted == Spec.AllApply(b, updates)
    ensures anyAdded == Spec.AnyApplies(b, updates)
  {
    c, allAccepted, anyAdded := b, true, false;
    var rest := updates.Keys;
    while rest != {}
      invariant rest <= updates.Keys
      invariant allAccepted <==> forall h :: h in updates && h !in rest ==> Spec.Applies(b, updates, h)
      invariant anyAdded <==> exists h :: h in updates && h !in rest && Spec.Applies(b, updates, h)
      invariant forall h :: SwappedAt(b, updates, rest, c, h)
      decreases |rest|
    {
      var hash :| hash in rest;
      assert SwappedAt(b, updates, rest, c, hash);
      ghost var before, already := rest, c;
      rest := rest - {hash};
      var u := updates[hash];
      if u.prevVersion == Ver(c, hash) {
        c := Ballot(c.proofs[hash := u.proof], c.vers[hash := Ver(c, hash) + 1]);
        anyAdded := true;
        assert Spec.Applies(b, updates, hash);
      } else {
        allAccepted := false;
        assert !Spec.Applies(b, updates, hash);
      }
      forall h ensures SwappedAt(b, updates, rest, c, h) {
        assert SwappedAt(b, updates, before, already, h);
      }
    }
    PassDone(b, updates, c);
  }

  lemma PassDone(b: Ballot, updates: map<Hash, VoteUpdate>, c: Ballot)
    requires forall h :: SwappedAt(b, updates, {}, c, h)
    ensures c == Spec.ApplyUpdates(b, updates)
  {
    var d := Spec.ApplyUpdates(b, updates);
    forall h ensures h in c.proofs <==> h in d.proofs
             ensures h in c.vers <==> h in d.vers
             ensures h in c.proofs ==> c.proofs[h] == d.proofs[h]
             ensures h in c.vers ==> c.vers[h] == d.vers[h]
    {
      assert SwappedAt(b, updates, {}, c, h);
    }
    assert c.proofs == d.proofs && c.vers == d.vers;
  }

  /** What both kinds of votes have in common, up to the response. The result is absent when there is no
    view to answer from. */
  method StoreVoteUpdates(s: KState, kind: Kind, id: Spec.ViewId, updates: map<Hash, VoteUpdate>)
    returns (panicked: bool, res: Spec.AddResult)
    modifies s, s.sm, s.gossip
    ensures Yields(panicked, Spec.StoreVotes(old(s.Model()), id, kind, updates), s.Model())
    ensures !panicked ==> res == Spec.AddResultFor(BallotOf(Spec.GetView(old(s.Model()), id), kind), updates)
  {
    panicked := false;
    var v := s.GetView(id);
    var b, allAccepted, anyAdded := ApplyVoteUpdates(BallotOf(v, kind), updates);
    if anyAdded {
      if v.version == 0 {
        return true, Spec.Conflict; // The zero view has no maps to store into.
      }
      v := WithBallot(v, kind, b);
      var tally := TallyVotes(v.vals.powers, b.proofs);
      v := v.(summary := if kind.Prevote? then v.summary.(prevotes := tally) else v.summary.(precommits := tally));
      s.SetView(id, v);
      s.MarkViewUpdated(id);
    }
    res := if allAccepted then Spec.Accepted else Spec.Conflict;
  }

  ghost predicate Answers(panicked: bool, res: Spec.AddResult, o: Spec.Outcome<(Spec.K, Spec.AddResult)>, k: Spec.K) {
    (panicked <==> o.Stuck?) && (o.Ok? ==> o.value == (k, res))
  }

  method AddPrevote(s: KState, h: nat, r: nat, updates: map<Hash, VoteUpdate>) returns (panicked: bool, res: Spec.AddResult)
    modifies s, s.sm, s.gossip
    ensures Answers(panicked, res, Spec.AddVotes(old(s.Model()), Prevote, h, r, updates), s.Model())
  {
    panicked, res := false, Spec.OutOfDate;
    var f := s.FindView(h, r);
    if !f.Found? {
      if !f.BeforeCommitting? && !f.Orphaned? {
        panicked := true;
      }
      return;
    }
    panicked, res := StoreVoteUpdates(s, Prevote, f.id, updates);
    if !panicked && res == Spec.Accepted && f.id.NextRoundView? {
      panicked := CheckPrevoteViewShift(s);
    }
  }

  method AddPrecommit(s: KState, h: nat, r: nat, updates: map<Hash, VoteUpdate>) returns (panicked: bool, res: Spec.AddResult)
    modifies s, s.sm, s.gossip
    ensures Answers(panicked, res, Spec.AddVotes(old(s.Model()), Precommit, h, r, updates), s.Model())
  {
    panicked, res := false, Spec.OutOfDate;
    var f := s.FindView(h, r);
    if !f.Found? {
      if !f.BeforeCommitting? && !f.Orphaned? {
        panicked := true;
      }
      return;
    }
    panicked, res := StoreVoteUpdates(s, Precommit, f.id, updates);
    if panicked || res != Spec.Accepted {
      return;
    }
    match f.id {
      case VotingView => panicked := CheckVotingPrecommitViewShift(s);
      case NextRoundView => panicked := CheckNextRoundPrecommitViewShift(s);
      case CommittingView =>
    }
  }

  // ----- Proposed headers -----

  /** A block's proof once the blocks outside `rest` were merged. */
  ghost function CarriedAt(signed: set<Vote>, v: View, carried: map<Hash, set<nat>>, rest: set<Hash>, h: Hash): Proof
    requires h in v.precommits.proofs
  {
    if h in carried && h !in rest then MergeSparse(signed, v.precommits.proofs[h], Precommit, v.h, v.r, h, carried[h])
    else v.precommits.proofs[h]
  }

  lemma AllCarried(signed: set<Vote>, v: View, carried: map<Hash, set<nat>>, proofs: map<Hash, Proof>)
    requires carried.Keys <= v.precommits.proofs.Keys == proofs.Keys
    requires forall h :: h in proofs ==> proofs[h] == CarriedAt(signed, v, carried, {}, h)
    ensures proofs == Spec.Backfill(signed, v, carried)
  {
  }

  /** Merges the precommits a header carries into the committing view's proofs, in arbitrary order. */
  method MergeCarried(signed: set<Vote>, v: View, carried: map<Hash, set<nat>>) returns (panicked: bool, proofs: map<Hash, Proof>)
    ensures panicked <==> !(carried.Keys <= v.precommits.proofs.Keys)
    ensures !panicked ==> proofs == Spec.Backfill(signed, v, carried)
  {
    panicked, proofs := false, v.precommits.proofs;
    var rest := carried.Keys;
    while rest != {}
      invariant rest <= carried.Keys && carried.Keys - rest <= v.precommits.proofs.Keys == proofs.Keys
      invariant forall h :: h in proofs ==> proofs[h] == CarriedAt(signed, v, carried, rest, h)
      decreases |rest|
    {
      var hash :| hash in rest;
      rest := rest - {hash};
      if hash !in proofs {
        return true, proofs;
      }
      var merged := MergeInto(signed, proofs[hash], Precommit, v.h, v.r, hash, carried[hash]);
      proofs := proofs[hash := merged];
    }
    AllCarried(signed, v, carried, proofs);
  }

  method BackfillCommitting(signed: set<Vote>, s: KState, carried: map<Hash, set<nat>>) returns (panicked: bool)
    modifies s, s.sm, s.gossip
    ensures Yields(panicked, Spec.BackfillCommitting(signed, old(s.Model()), carried), s.Model())
  {
    var proofs;
    panicked, proofs := MergeCarried(signed, s.committing, carried);
    if !panicked && proofs != s.committing.precommits.proofs {
      s.committing := s.committing.(precommits := s.committing.precommits.(proofs := proofs));
      s.MarkCommittingViewUpdated();
    }
  }

  method AddProposedHeader(signed: set<Vote>, s: KState, ph: ProposedHeader) returns (panicked: bool)
    modifies s, s.sm, s.gossip
    ensures Yields(panicked, Spec.AddHeader(signed, old(s.Model()), ph), s.Model())
  {
    panicked := false;
    var f := s.FindView(ph.header.height, ph.round);
    if !f.Found? {
      return f.Unhandled?;
    }
    var v := s.GetView(f.id);
    var i := 0;
    while i < |v.headers|
      invariant i <= |v.headers| && forall j :: 0 <= j < i ==> v.headers[j].sig != ph.sig
    {
      if v.headers[i].sig == ph.sig {
        return;
      }
      i := i + 1;
    }
    s.SetView(f.id, v.(headers := v.headers + [ph]));
    s.MarkViewUpdated(f.id);
    if f.id.CommittingView? {
      return;
    }
    panicked := BackfillCommitting(signed, s, ph.header.prevCommit);
    if !panicked && f.id.VotingView? && ph.header.hash in s.voting.precommits.proofs {
      panicked := CheckVotingPrecommitViewShift(s);
    }
  }

  // ----- The local state machine and gossip -----

  method HandleStateMachineRoundEntrance(s: KState, h: nat, r: nat, key: Option<Key>) returns (panicked: bool)
    modifies s, s.sm, s.gossip
    ensures Yields(panicked, Spec.Enter(old(s.Model()), h, r, key), s.Model())
  {
    panicked := false;
    s.sm.Reset(h, r, key);
    var f := s.FindView(h, r);
    if !f.Found? {
      return !f.BeforeCommitting?;
    }
    var v := s.GetView(f.id);
    s.sm.MarkFirstSentVersion(v.version);
  }

  /** A vote of the local state machine. `i` is the index of its key. */
  method HandleStateMachineVote(signed: set<Vote>, s: KState, kind: Kind, hash: Hash, i: nat) returns (panicked: bool)
    modifies s, s.sm, s.gossip
    ensures Yields(panicked, Spec.LocalVote(signed, old(s.Model()), kind, hash, i), s.Model())
  {
    panicked := false;
    var h, r := s.sm.h, s.sm.r;
    var f := s.FindView(h, r);
    if f.Unhandled? {
      return true;
    }
    if !f.Found? || f.id.NextRoundView? {
      return;
    }
    var v := s.GetView(f.id);
    var b := BallotOf(v, kind);
    var updated := if hash in b.proofs then b.proofs[hash] else Proof(s.voting.vals.keys, {});
    if !(i < |updated.keys| && s.sm.key == Some(updated.keys[i]) && Vote(kind, updated.keys[i], h, r, hash) in signed) {
      return;
    }
    updated := updated.(bits := updated.bits + {i});
    var updates := map[hash := VoteUpdate(updated, Ver(b, hash))];
    var res;
    if kind.Prevote? {
      panicked, res := AddPrevote(s, h, r, updates);
    } else {
      panicked, res := AddPrecommit(s, h, r, updates);
    }
  }

  method SendToStateMachine(s: KState)
    modifies s.sm
    ensures s.Model() == Spec.MarkSMSent(old(s.Model()))
  {
    var o := s.sm.Output();
    if o.Send? {
      s.sm.MarkSent(o);
    }
  }

  method SendToGossip(s: KState)
    requires SlotConsistent(s.gossip.committing) && SlotConsistent(s.gossip.voting) && SlotConsistent(s.gossip.nextRound)
    modifies s.gossip
    ensures s.Model() == Spec.SendGossip(old(s.Model()))
  {
    var o := s.gossip.Output();
    s.gossip.MarkSent(o);
  }

  // ----- Snapshots -----

  /** Which parts of a view a caller wants. */
  datatype Fields = Fields(validators: bool, headers: bool, prevotes: bool, precommits: bool, summary: bool)

  /** A view with only the wanted parts. */
  function Snapshot(v: View, f: Fields): View {
    View(v.h, v.r,
         if f.validators then v.vals else ValSet([], []),
         if f.headers then v.headers else [],
         if f.prevotes then v.prevotes else EMPTY_BALLOT,
         if f.precommits then v.precommits else EMPTY_BALLOT,
         if f.summary then v.summary else VoteSummary(0, EMPTY_TALLY, EMPTY_TALLY),
         v.version)
  }

  function FieldsFor(kind: Kind): Fields {
    Fields(true, false, kind.Prevote?, kind.Precommit?, false)
  }

  /** Copies a map entry by entry, in arbitrary order, into a cleared one. */
  method CopyMap<V>(src: map<Hash, V>) returns (dst: map<Hash, V>)
    ensures dst == src
  {
    dst := map[];
    var rest := src.Keys;
    while rest != {}
      invariant rest <= src.Keys && dst.Keys == src.Keys - rest
      invariant forall h :: h in dst ==> dst[h] == src[h]
      decreases |rest|
    {
      var hash :| hash in rest;
      rest := rest - {hash};
      dst := dst[hash := src[hash]];
    }
  }

  method CopyBallot(src: Ballot) returns (dst: Ballot)
    ensures dst == src
  {
    var proofs := CopyMap(src.proofs);
    var vers := CopyMap(src.vers);
    dst := Ballot(proofs, vers);
  }

  /** Copies the wanted parts over a destination that is reused between tries. Nothing the destination
    held before shows in the result. */
  method CopySnapshotView(src: View, dst: View, f: Fields) returns (r: View)
    ensures r == Snapshot(src, f)
  {
    r := dst.(h := src.h, r := src.r, version := src.version);
    r := r.(vals := if f.validators then src.vals else ValSet([], []));
    r := r.(headers := if f.headers then src.headers else []);
    r := r.(prevotes := EMPTY_BALLOT, precommits := EMPTY_BALLOT);
    if f.prevotes {
      var b := CopyBallot(src.prevotes);
      r := r.(prevotes := b);
    }
    if f.precommits {
      var b := CopyBallot(src.precommits);
      r := r.(precommits := b);
    }
    r := r.(summary := VoteSummary(0, EMPTY_TALLY, EMPTY_TALLY));
    if f.summary {
      r := r.(summary := src.summary);
    }
  }

  ghost predicate SameFor(kind: Kind, s: View, v: View) {
    s.h == v.h && s.r == v.r && s.vals == v.vals && BallotOf(s, kind) == BallotOf(v, kind)
  }

  lemma SameSigs(s: View, v: View, kind: Kind, claims: map<Hash, set<nat>>)
    requires SameFor(kind, s, v)
    ensures MirrorSystem.SigsToAdd(s, kind, claims) == MirrorSystem.SigsToAdd(v, kind, claims)
  {
    forall hash | hash in claims
      ensures MirrorSystem.Missing(s, kind, hash, claims[hash]) == MirrorSystem.Missing(v, kind, hash, claims[hash])
    {
      assert MirrorSystem.BaseProof(s, kind, hash) == MirrorSystem.BaseProof(v, kind, hash);
    }
  }

  lemma SameUpdates(signed: set<Vote>, s: View, v: View, kind: Kind, claims: map<Hash, set<nat>>)
    requires SameFor(kind, s, v)
    ensures MirrorSystem.PrepareUpdates(signed, s, kind, claims) == MirrorSystem.PrepareUpdates(signed, v, kind, claims)
  {
    SameSigs(s, v, kind, claims);
    var a, b := MirrorSystem.PrepareUpdates(signed, s, kind, claims), MirrorSystem.PrepareUpdates(signed, v, kind, claims);
    assert a.Keys == b.Keys;
    forall hash | hash in a ensures a[hash] == b[hash] {
      assert MirrorSystem.BaseProof(s, kind, hash) == MirrorSystem.BaseProof(v, kind, hash);
    }
  }

  /** The snapshot a proof handler asks for tells it all it needs: the updates it submits are those it
    would have computed on the view itself. */
  lemma SnapshotSuffices(signed: set<Vote>, v: View, kind: Kind, claims: map<Hash, set<nat>>)
    ensures
      var s := Snapshot(v, FieldsFor(kind));
      && s.vals == v.vals
      && MirrorSystem.SigsToAdd(s, kind, claims) == MirrorSystem.SigsToAdd(v, kind, claims)
      && MirrorSystem.PrepareUpdates(signed, s, kind, claims) == MirrorSystem.PrepareUpdates(signed, v, kind, claims)
  {
    var s := Snapshot(v, FieldsFor(kind));
    SameSigs(s, v, kind, claims);
    SameUpdates(signed, s, v, kind, claims);
  }

  // ----- Outside the kernel: a proof handler on its snapshot -----

  /** Per block, the claimed signatures that could be new. */
  method GetSignaturesToAdd(v: View, kind: Kind, claims: map<Hash, set<nat>>) returns (toAdd: map<Hash, set<nat>>)
    ensures toAdd == MirrorSystem.SigsToAdd(v, kind, claims)
  {
    toAdd := map[];
    var rest := claims.Keys;
    while rest != {}
      invariant rest <= claims.Keys && toAdd.Keys <= claims.Keys - rest
      invariant forall h :: h in claims && h !in rest ==>
        var missing := MirrorSystem.Missing(v, kind, h, claims[h]);
        if missing == {} then h !in toAdd else h in toAdd && toAdd[h] == missing
      decreases |rest|
    {
      var hash :| hash in rest;
      rest := rest - {hash};
      var sigs := SignaturesToAddFor(v, kind, hash, claims[hash]);
      if sigs != {} {
        toAdd := toAdd[hash := sigs];
      }
    }
    assert toAdd == MirrorSystem.SigsToAdd(v, kind, claims);
  }

  method SignaturesToAddFor(v: View, kind: Kind, hash: Hash, claim: set<nat>) returns (sigs: set<nat>)
    ensures sigs == MirrorSystem.Missing(v, kind, hash, claim)
  {
    sigs := {};
    var b := BallotOf(v, kind);
    var rest := claim;
    while rest != {}
      invariant rest <= claim
      invariant forall i :: i in sigs <==> i in claim && i !in rest && i in MirrorSystem.Missing(v, kind, hash, claim)
      decreases |rest|
    {
      var i :| i in rest;
      rest := rest - {i};
      if hash !in b.proofs {
        if i < |v.vals.keys| {
          sigs := sigs + {i};
        }
      } else if i < |b.proofs[hash].keys| && i !in b.proofs[hash].bits {
        sigs := sigs + {i};
      }
    }
  }

  predicate Verifies(signed: set<Vote>, p: Proof, kind: Kind, h: nat, r: nat, hash: Hash, i: nat) {
    i < |p.keys| && Vote(kind, p.keys[i], h, r, hash) in signed
  }

  /** Verifies the signatures one by one and adds the valid ones. */
  method MergeInto(signed: set<Vote>, p: Proof, kind: Kind, h: nat, r: nat, hash: Hash, sigs: set<nat>) returns (q: Proof)
    ensures q == MergeSparse(signed, p, kind, h, r, hash, sigs)
  {
    var bits := p.bits;
    var rest := sigs;
    while rest != {}
      invariant rest <= sigs
      invariant forall i :: i in bits <==> i in p.bits || (i in sigs && i !in rest && Verifies(signed, p, kind, h, r, hash, i))
      decreases |rest|
    {
      var i :| i in rest;
      rest := rest - {i};
      if Verifies(signed, p, kind, h, r, hash, i) {
        bits := bits + {i};
      }
    }
    q := p.(bits := bits);
    MergedAll(signed, p, kind, h, r, hash, sigs, bits);
  }

  lemma MergedAll(signed: set<Vote>, p: Proof, kind: Kind, h: nat, r: nat, hash: Hash, sigs: set<nat>, bits: set<nat>)
    requires forall i :: i in bits <==> i in p.bits || (i in sigs && Verifies(signed, p, kind, h, r, hash, i))
    ensures bits == p.bits + Verified(signed, p, kind, h, r, hash, sigs)
  {
  }

  method BuildVoteUpdate(signed: set<Vote>, v: View, kind: Kind, hash: Hash, sigs: set<nat>) returns (u: VoteUpdate)
    ensures u == VoteUpdate(MergeSparse(signed, MirrorSystem.BaseProof(v, kind, hash), kind, v.h, v.r, hash, sigs), Ver(BallotOf(v, kind), hash))
  {
    var b := BallotOf(v, kind);
    var full := if hash in b.proofs then b.proofs[hash] else Proof(v.vals.keys, {});
    full := MergeInto(signed, full, kind, v.h, v.r, hash, sigs);
    u := VoteUpdate(full, Ver(b, hash));
  }

  /** Merges the new signatures into copies of the proofs, to be submitted with the versions seen. */
  method BuildVoteUpdates(signed: set<Vote>, v: View, kind: Kind, claims: map<Hash, set<nat>>) returns (updates: map<Hash, VoteUpdate>)
    ensures updates == MirrorSystem.PrepareUpdates(signed, v, kind, claims)
  {
    var sigsToAdd := GetSignaturesToAdd(v, kind, claims);
    ghost var target := MirrorSystem.PrepareUpdates(signed, v, kind, claims);
    updates := map[];
    var rest := sigsToAdd.Keys;
    while rest != {}
      invariant rest <= sigsToAdd.Keys && updates.Keys == sigsToAdd.Keys - rest
      invariant forall h :: h in updates ==> updates[h] == target[h]
      decreases |rest|
    {
      var hash :| hash in rest;
      rest := rest - {hash};
      var u := BuildVoteUpdate(signed, v, kind, hash, sigsToAdd[hash]);
      updates := updates[hash := u];
    }
    assert updates == target;
  }
}
