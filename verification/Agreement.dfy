/** Agreement: a network of validators and mirrors. Honest validators release votes only through
  their action store; everything else is up to the adversary. */
module Agreement {
  import opened Options
  import opened Quorum
  import opened Votes
  import opened Views
  import opened KernelSpec
  import opened KernelInv
  import opened MirrorSystem
  import ActionStore

  // ----- What a commit rests on -----

  ghost predicate Backed(signed: set<Vote>, p: Proof, keys: seq<Key>, h: nat, r: nat, hash: Hash) {
    p.keys == keys && forall i :: i in p.bits ==> i < |keys| && Vote(Precommit, keys[i], h, r, hash) in signed
  }

  /** Every precommit in the view was really signed. */
  ghost predicate ViewBacked(signed: set<Vote>, v: View) {
    forall hash :: hash in v.precommits.proofs ==> Backed(signed, v.precommits.proofs[hash], v.vals.keys, v.h, v.r, hash)
  }

  /** A commit is of a block, and a Byzantine majority of the validators signed for it. */
  ghost predicate CommitOk(signed: set<Vote>, c: Commit) {
    && c.hash != NIL_HASH
    && Total(c.vals.powers) > 0
    && Power(c.vals.powers, c.bits) >= ByzantineMajority(Total(c.vals.powers))
    && forall i :: i in c.bits ==> i < |c.vals.keys| && Vote(Precommit, c.vals.keys[i], c.h, c.r, c.hash) in signed
  }

  ghost predicate LogOk(signed: set<Vote>, k: K) {
    && (forall c :: c in k.log ==> CommitOk(signed, c))
    && k.voting.h == k.initialHeight + |k.log|
    && (forall i :: 0 <= i < |k.log| ==> k.log[i].h == k.initialHeight + i)
  }

  ghost predicate KernelBacked(signed: set<Vote>, k: K) {
    ViewBacked(signed, k.voting) && ViewBacked(signed, k.nextRound) && LogOk(signed, k)
  }

  ghost predicate UpdatesBacked(signed: set<Vote>, v: View, updates: map<Hash, VoteUpdate>) {
    forall hash :: hash in updates ==> Backed(signed, updates[hash].proof, v.vals.keys, v.h, v.r, hash)
  }

  ghost predicate PendingBacked(signed: set<Vote>, k: K, p: Pending) {
    p.kind.Precommit? && LiveView(k, Precommit, p.h, p.r).Some? ==>
      UpdatesBacked(signed, LiveView(k, Precommit, p.h, p.r).value, p.updates)
  }

  ghost predicate MirrorBacked(signed: set<Vote>, m: Mirror) {
    KernelBacked(signed, m.k) && forall id :: id in m.pending ==> PendingBacked(signed, m.k, m.pending[id])
  }

  // ----- Kernel steps keep it -----

  lemma IncrementBacked(signed: set<Vote>, k: K)
    requires KernelBacked(signed, k) && k.nextRound.h == k.voting.h
    ensures KernelBacked(signed, IncrementRound(k))
  {
  }

  lemma ShiftBacked(signed: set<Vote>, k: K, c: Commit, header: Header)
    requires KernelBacked(signed, k) && CommitOk(signed, c) && c.h == k.voting.h
    ensures KernelBacked(signed, ShiftToCommitting(k.(log := k.log + [c]), header))
  {
  }

  /** The kernel commits only what a majority signed. */
  lemma CommitRecordOk(signed: set<Vote>, k: K)
    requires Inv(k) && ViewBacked(signed, k.voting) && k.voting.summary.available > 0
    requires
      var t := k.voting.summary.precommits;
      t.mostVoted != NIL_HASH && PowerFor(t, t.mostVoted) >= ByzantineMajority(k.voting.summary.available)
    ensures CommitOk(signed, CommitRecord(k.voting, k.voting.summary.precommits.mostVoted))
  {
    var v := k.voting;
    var hash := v.summary.precommits.mostVoted;
    assert hash in v.precommits.proofs;
    assert Backed(signed, v.precommits.proofs[hash], v.vals.keys, v.h, v.r, hash);
  }

  lemma CheckVotingShiftBacked(signed: set<Vote>, k: K)
    requires Inv(k) && KernelBacked(signed, k) && CheckVotingShift(k).Ok?
    ensures KernelBacked(signed, CheckVotingShift(k).value)
  {
    var t := k.voting.summary.precommits;
    IncrementBacked(signed, k.(nilVoted := Some(k.voting)));
    if t.mostVoted != NIL_HASH && PowerFor(t, t.mostVoted) >= ByzantineMajority(k.voting.summary.available) {
      match FindHeader(k.voting.headers, t.mostVoted) {
        case None =>
        case Some(header) =>
          CommitRecordOk(signed, k);
          ShiftBacked(signed, k, CommitRecord(k.voting, t.mostVoted), header);
      }
    }
  }

  lemma JumpBacked(signed: set<Vote>, k: K)
    requires KernelBacked(signed, k) && k.nextRound.h == k.voting.h
    ensures KernelBacked(signed, JumpRound(k))
  {
    IncrementBacked(signed, k);
  }

  lemma CheckShiftBacked(signed: set<Vote>, k: K, id: ViewId, kind: Kind)
    requires Inv(k) && KernelBacked(signed, k) && CheckShift(k, id, kind).Ok?
    ensures KernelBacked(signed, CheckShift(k, id, kind).value)
  {
    JumpBacked(signed, k);
    if id.VotingView? && kind.Precommit? {
      CheckVotingShiftBacked(signed, k);
    }
  }

  lemma ApplyBacked(signed: set<Vote>, v: View, updates: map<Hash, VoteUpdate>)
    requires ViewBacked(signed, v) && UpdatesBacked(signed, v, updates)
    ensures ViewBacked(signed, v.(precommits := ApplyUpdates(v.precommits, updates)))
  {
  }

  lemma TouchBacked(signed: set<Vote>, k: K, id: ViewId, w: View)
    requires KernelBacked(signed, k) && SameStamp(GetView(k, id), w)
    requires !id.CommittingView? ==> ViewBacked(signed, w)
    ensures KernelBacked(signed, Touch(k, id, w))
  {
  }

  lemma StoreVotesBacked(signed: set<Vote>, k: K, id: ViewId, kind: Kind, updates: map<Hash, VoteUpdate>)
    requires KernelBacked(signed, k) && StoreVotes(k, id, kind, updates).Ok?
    requires kind.Precommit? && !id.CommittingView? ==> UpdatesBacked(signed, GetView(k, id), updates)
    ensures KernelBacked(signed, StoreVotes(k, id, kind, updates).value)
  {
    var v := GetView(k, id);
    var b := BallotOf(v, kind);
    var w := Resummarize(WithBallot(v, kind, ApplyUpdates(b, updates)), kind);
    if kind.Precommit? && !id.CommittingView? {
      ApplyBacked(signed, v, updates);
    }
    TouchBacked(signed, k, id, w);
  }

  lemma AddVotesBacked(signed: set<Vote>, k: K, kind: Kind, h: nat, r: nat, updates: map<Hash, VoteUpdate>)
    requires Inv(k) && KernelBacked(signed, k) && AddVotes(k, kind, h, r, updates).Ok?
    requires kind.Precommit? && LiveView(k, kind, h, r).Some? ==> UpdatesBacked(signed, LiveView(k, kind, h, r).value, updates)
    ensures KernelBacked(signed, AddVotes(k, kind, h, r, updates).value.0)
  {
    var f := FindView(k, h, r);
    if f.Found? {
      StoreVotesBacked(signed, k, f.id, kind, updates);
      StoreVotesKeeps(k, f.id, kind, updates);
      var k1 := StoreVotes(k, f.id, kind, updates).value;
      if CheckShift(k1, f.id, kind).Ok? {
        CheckShiftBacked(signed, k1, f.id, kind);
      }
    }
  }

  lemma BackfillBacked(signed: set<Vote>, k: K, carried: map<Hash, set<nat>>)
    requires KernelBacked(signed, k) && BackfillCommitting(signed, k, carried).Ok?
    ensures KernelBacked(signed, BackfillCommitting(signed, k, carried).value)
  {
    var proofs := Backfill(signed, k.committing, carried);
    if proofs != k.committing.precommits.proofs {
      TouchBacked(signed, k, CommittingView, k.committing.(precommits := k.committing.precommits.(proofs := proofs)));
    }
  }

  lemma AddHeaderBacked(signed: set<Vote>, k: K, ph: ProposedHeader)
    requires Inv(k) && KernelBacked(signed, k) && ph.header.height > 0 && AddHeader(signed, k, ph).Ok?
    ensures KernelBacked(signed, AddHeader(signed, k, ph).value)
  {
    var f := FindView(k, ph.header.height, ph.round);
    if f.Found? && !HasSignature(GetView(k, f.id).headers, ph.sig) {
      var v := GetView(k, f.id);
      var w := v.(headers := v.headers + [ph]);
      TouchKeeps(k, f.id, w);
      TouchBacked(signed, k, f.id, w);
      var k1 := Touch(k, f.id, w);
      if !f.id.CommittingView? {
        BackfillKeeps(signed, k1, ph.header.prevCommit);
        BackfillBacked(signed, k1, ph.header.prevCommit);
        var k2 := BackfillCommitting(signed, k1, ph.header.prevCommit).value;
        if f.id.VotingView? && ph.header.hash in k2.voting.precommits.proofs {
          CheckVotingShiftBacked(signed, k2);
        }
      }
    }
  }

  /** The local vote is one more signed precommit on top of the voting view's proof. */
  lemma LocalUpdateBacked(signed: set<Vote>, v: View, hash: Hash, i: nat, prevVersion: nat)
    requires ViewBacked(signed, v)
    requires var base := if hash in v.precommits.proofs then v.precommits.proofs[hash] else Proof(v.vals.keys, {});
             i < |base.keys| && Vote(Precommit, base.keys[i], v.h, v.r, hash) in signed
    ensures var base := if hash in v.precommits.proofs then v.precommits.proofs[hash] else Proof(v.vals.keys, {});
            UpdatesBacked(signed, v, map[hash := VoteUpdate(base.(bits := base.bits + {i}), prevVersion)])
  {
    if hash in v.precommits.proofs {
      assert Backed(signed, v.precommits.proofs[hash], v.vals.keys, v.h, v.r, hash);
    }
  }

  lemma LocalVoteBacked(signed: set<Vote>, k: K, kind: Kind, hash: Hash, i: nat)
    requires Inv(k) && KernelBacked(signed, k) && LocalVote(signed, k, kind, hash, i).Ok?
    ensures KernelBacked(signed, LocalVote(signed, k, kind, hash, i).value)
  {
    var f := FindView(k, k.sm.h, k.sm.r);
    if f.Found? && !f.id.NextRoundView? {
      var b := BallotOf(GetView(k, f.id), kind);
      var base := if hash in b.proofs then b.proofs[hash] else Proof(k.voting.vals.keys, {});
      if i < |base.keys| && k.sm.key == Some(base.keys[i]) && Vote(kind, base.keys[i], k.sm.h, k.sm.r, hash) in signed {
        var updates := map[hash := VoteUpdate(base.(bits := base.bits + {i}), Ver(b, hash))];
        if kind.Precommit? && f.id.VotingView? {
          LocalUpdateBacked(signed, k.voting, hash, i, Ver(b, hash));
        }
        LocalVoteAddsVotes(signed, k, kind, hash, i);
        AddVotesBacked(signed, k, kind, k.sm.h, k.sm.r, updates);
      }
    }
  }

  lemma LocalVoteAddsVotes(signed: set<Vote>, k: K, kind: Kind, hash: Hash, i: nat)
    requires LocalVote(signed, k, kind, hash, i).Ok?
    ensures
      var f := FindView(k, k.sm.h, k.sm.r);
      f.Found? && !f.id.NextRoundView? ==>
        var b := BallotOf(GetView(k, f.id), kind);
        var base := if hash in b.proofs then b.proofs[hash] else Proof(k.voting.vals.keys, {});
        var updates := map[hash := VoteUpdate(base.(bits := base.bits + {i}), Ver(b, hash))];
        if i < |base.keys| && k.sm.key == Some(base.keys[i]) && Vote(kind, base.keys[i], k.sm.h, k.sm.r, hash) in signed then
          && AddVotes(k, kind, k.sm.h, k.sm.r, updates).Ok?
          && LocalVote(signed, k, kind, hash, i).value == AddVotes(k, kind, k.sm.h, k.sm.r, updates).value.0
        else LocalVote(signed, k, kind, hash, i).value == k
  {
  }

  // ----- Mirror steps keep it -----

  lemma PendingStaysBacked(signed: set<Vote>, k: K, k': K, p: Pending)
    requires Aligned(k) && Aligned(k') && Follows(k, k') && PendingBacked(signed, k, p)
    requires HRLeq(p.h, p.r, k.nextRound.h, k.nextRound.r)
    ensures PendingBacked(signed, k', p)
  {
    assert FollowsAt(k, k', Precommit, p.h, p.r);
    if LiveView(k', Precommit, p.h, p.r).Some? {
      LiveWithinFrontier(k', Precommit, p.h, p.r);
      LiveWithinFrontier(k, Precommit, p.h, p.r);
    }
  }

  lemma PreparedBacked(signed: set<Vote>, v: View, claims: map<Hash, set<nat>>)
    requires ViewBacked(signed, v)
    ensures UpdatesBacked(signed, v, PrepareUpdates(signed, v, Precommit, claims))
  {
    var updates := PrepareUpdates(signed, v, Precommit, claims);
    forall hash | hash in updates ensures Backed(signed, updates[hash].proof, v.vals.keys, v.h, v.r, hash) {
      assert Backed(signed, BaseProof(v, Precommit, hash), v.vals.keys, v.h, v.r, hash);
    }
  }

  lemma LookupBacked(signed: set<Vote>, m: Mirror, e: Event)
    requires MirrorOk(m) && MirrorBacked(signed, m) && e.Lookup? && DoLookup(signed, m, e).Ok?
    ensures MirrorBacked(signed, DoLookup(signed, m, e).value)
  {
    var f := FindView(m.k, e.h, e.r);
    if f.Found? && !f.id.CommittingView? {
      PreparedBacked(signed, GetView(m.k, f.id), e.claims);
    }
  }

  lemma StepKernelBacked(signed: set<Vote>, m: Mirror, e: Event)
    requires MirrorOk(m) && MirrorBacked(signed, m) && Step(signed, m, e).Ok? && !e.Lookup?
    ensures KernelBacked(signed, Step(signed, m, e).value.k)
  {
    match e {
      case Submit(id) =>
        if id in m.pending {
          var p := m.pending[id];
          assert PendingBacked(signed, m.k, p);
          AddVotesBacked(signed, m.k, p.kind, p.h, p.r, p.updates);
        }
      case NewHeader(ph) =>
        if ph.header.height > 0 { AddHeaderBacked(signed, m.k, ph); }
      case SMVote(kind, hash, i) => LocalVoteBacked(signed, m.k, kind, hash, i);
      case _ =>
    }
  }

  lemma StepBacked(signed: set<Vote>, m: Mirror, e: Event)
    requires MirrorOk(m) && MirrorBacked(signed, m) && Forward(m, e) && Step(signed, m, e).Ok?
    ensures MirrorBacked(signed, Step(signed, m, e).value)
  {
    if e.Lookup? {
      LookupBacked(signed, m, e);
    } else {
      StepKernelBacked(signed, m, e);
      StepKernelOk(signed, m, e);
      PendingSubset(signed, m, e);
      var m' := Step(signed, m, e).value;
      forall id | id in m'.pending ensures PendingBacked(signed, m'.k, m'.pending[id]) {
        assert PendingOk(m.k, m.pending[id]) && PendingBacked(signed, m.k, m.pending[id]);
        PendingStaysBacked(signed, m.k, m'.k, m.pending[id]);
      }
    }
  }

  /** More signatures never invalidate what rests on fewer. */
  lemma MoreSigned(signed: set<Vote>, signed': set<Vote>, m: Mirror)
    requires signed <= signed' && MirrorBacked(signed, m)
    ensures MirrorBacked(signed', m)
  {
    forall c | c in m.k.log ensures CommitOk(signed', c) {
      assert CommitOk(signed, c);
    }
    forall id | id in m.pending ensures PendingBacked(signed', m.k, m.pending[id]) {
      assert PendingBacked(signed, m.k, m.pending[id]);
    }
  }

  // ----- The network -----

  /** `signed` is every vote signature in the network; the honest validators are the keys of `nodes`. */
  datatype Net = Net(signed: set<Vote>, nodes: map<Key, ActionStore.Node>, mirrors: map<nat, Mirror>)

  datatype NetEvent =
    | ByHonest(key: Key, action: ActionStore.Action)
    | ByAdversary(vote: Vote)
    | ByMirror(id: nat, event: Event)

  function VotesOf(released: seq<ActionStore.Release>): set<Vote> {
    set i | 0 <= i < |released| && released[i].VoteOut? ::
      Vote(released[i].kind, released[i].key, released[i].h, released[i].r, released[i].target)
  }

  /** An honest validator keeps its key. An adversary signs anything, but not with an honest key. A
    mirror that panics takes no step, and neither does one whose state machine would go back. */
  ghost function NetStep(net: Net, e: NetEvent): Net {
    match e
    case ByHonest(key, action) =>
      if key !in net.nodes || !ActionStore.Proper(net.nodes[key], action) || (action.Boot? && action.key != key) then net
      else
        var n := ActionStore.Act(net.nodes[key], action);
        net.(nodes := net.nodes[key := n], signed := net.signed + VotesOf(n.released))
    case ByAdversary(vote) =>
      if vote.key in net.nodes then net else net.(signed := net.signed + {vote})
    case ByMirror(id, event) =>
      if id !in net.mirrors || !Forward(net.mirrors[id], event) then net
      else
        match Step(net.signed, net.mirrors[id], event)
        case Stuck => net
        case Ok(m) => net.(mirrors := net.mirrors[id := m])
  }

  ghost function NetRun(net: Net, es: seq<NetEvent>): Net {
    if |es| == 0 then net else NetStep(NetRun(net, es[..|es| - 1]), es[|es| - 1])
  }

  /** Where a network starts: nothing signed, every mirror at some initial height and validator set. */
  ghost predicate Initial(net: Net) {
    && net.signed == {}
    && (forall key :: key in net.nodes ==> net.nodes[key] == ActionStore.NewNode(key))
    && (forall id :: id in net.mirrors ==>
          exists h, vals :: h > 0 && net.mirrors[id] == Mirror(InitialK(h, vals), map[]))
  }

  ghost predicate HonestOk(net: Net, key: Key)
    requires key in net.nodes
  {
    var n := net.nodes[key];
    && ActionStore.NodeOk(n) && n.key == key
    && (forall i :: 0 <= i < |n.released| && n.released[i].VoteOut? ==> n.released[i].key == key)
    && (forall v :: v in net.signed && v.key == key ==> v in VotesOf(n.released))
  }

  ghost predicate NetOk(net: Net) {
    && (forall key :: key in net.nodes ==> HonestOk(net, key))
    && (forall id :: id in net.mirrors ==> MirrorFine(net, id))
  }

  ghost predicate MirrorFine(net: Net, id: nat) {
    id in net.mirrors && MirrorOk(net.mirrors[id]) && MirrorBacked(net.signed, net.mirrors[id])
  }

  lemma InitiallyOk(net: Net)
    requires Initial(net)
    ensures NetOk(net)
  {
    forall id | id in net.mirrors ensures MirrorFine(net, id) {
      var h, vals :| h > 0 && net.mirrors[id] == Mirror(InitialK(h, vals), map[]);
      InitiallyHolds(h, vals);
    }
  }

  lemma HonestActs(net: Net, key: Key, action: ActionStore.Action)
    requires key in net.nodes && HonestOk(net, key)
    requires ActionStore.Proper(net.nodes[key], action) && (action.Boot? ==> action.key == key)
    ensures HonestOk(NetStep(net, ByHonest(key, action)), key)
    ensures forall v :: v in NetStep(net, ByHonest(key, action)).signed ==> v in net.signed || v.key == key
  {
    var n, n1 := net.nodes[key], ActionStore.Act(net.nodes[key], action);
    ActionStore.ActKeeps(n, action);
    assert n.released <= n1.released;
    forall v | v in VotesOf(n.released) ensures v in VotesOf(n1.released) {
      var i :| 0 <= i < |n.released| && n.released[i].VoteOut?
        && Vote(n.released[i].kind, n.released[i].key, n.released[i].h, n.released[i].r, n.released[i].target) == v;
      assert n1.released[i] == n.released[i];
    }
  }

  lemma HonestStepOk(net: Net, e: NetEvent, key: Key)
    requires NetOk(net) && key in net.nodes
    ensures HonestOk(NetStep(net, e), key)
  {
    assert HonestOk(net, key);
    if e.ByHonest? && e.key in net.nodes && ActionStore.Proper(net.nodes[e.key], e.action)
       && (e.action.Boot? ==> e.action.key == e.key) {
      assert HonestOk(net, e.key);
      HonestActs(net, e.key, e.action);
    }
  }

  lemma MirrorActs(net: Net, id: nat, event: Event)
    requires MirrorFine(net, id) && Forward(net.mirrors[id], event) && Step(net.signed, net.mirrors[id], event).Ok?
    ensures MirrorFine(net.(mirrors := net.mirrors[id := Step(net.signed, net.mirrors[id], event).value]), id)
  {
    StepOk(net.signed, net.mirrors[id], event);
    StepBacked(net.signed, net.mirrors[id], event);
  }

  lemma MirrorStepOk(net: Net, e: NetEvent, id: nat)
    requires MirrorFine(net, id)
    ensures MirrorFine(NetStep(net, e), id)
  {
    if e.ByMirror? {
      if e.id == id && Forward(net.mirrors[id], e.event) && Step(net.signed, net.mirrors[id], e.event).Ok? {
        MirrorActs(net, id, e.event);
        assert NetStep(net, e) == net.(mirrors := net.mirrors[id := Step(net.signed, net.mirrors[id], e.event).value]);
      } else {
        assert NetStep(net, e).mirrors[id] == net.mirrors[id];
      }
    } else {
      SignedGrows(net, e);
      MoreSigned(net.signed, NetStep(net, e).signed, net.mirrors[id]);
    }
  }

  lemma SignedGrows(net: Net, e: NetEvent)
    ensures net.signed <= NetStep(net, e).signed
    ensures !e.ByMirror? ==> NetStep(net, e).mirrors == net.mirrors
    ensures NetStep(net, e).nodes.Keys == net.nodes.Keys && NetStep(net, e).mirrors.Keys == net.mirrors.Keys
  {
  }

  lemma NetStepOk(net: Net, e: NetEvent)
    requires NetOk(net)
    ensures NetOk(NetStep(net, e)) && NetStep(net, e).nodes.Keys == net.nodes.Keys
  {
    SignedGrows(net, e);
    forall key | key in net.nodes ensures HonestOk(NetStep(net, e), key) {
      HonestStepOk(net, e, key);
    }
    forall id | id in net.mirrors ensures MirrorFine(NetStep(net, e), id) {
      MirrorStepOk(net, e, id);
    }
  }

  lemma {:induction false} NetRunOk(net: Net, es: seq<NetEvent>)
    requires Initial(net)
    ensures NetOk(NetRun(net, es)) && NetRun(net, es).nodes.Keys == net.nodes.Keys
  {
    if |es| == 0 {
      InitiallyOk(net);
    } else {
      NetRunOk(net, es[..|es| - 1]);
      NetStepOk(NetRun(net, es[..|es| - 1]), es[|es| - 1]);
    }
  }

  // ----- Agreement -----

  /** The validators whose key is not honest. */
  function FaultyIndices(vals: ValSet, honest: set<Key>): set<nat> {
    set i | 0 <= i < |vals.keys| && vals.keys[i] !in honest
  }

  /** An honest key signs one precommit per height and round. */
  lemma HonestSignsOnce(net: Net, key: Key, h: nat, r: nat, g: Hash, hash: Hash)
    requires NetOk(net) && key in net.nodes
    requires Vote(Precommit, key, h, r, g) in net.signed && Vote(Precommit, key, h, r, hash) in net.signed
    ensures g == hash
  {
    assert HonestOk(net, key);
    var released := net.nodes[key].released;
    assert Vote(Precommit, key, h, r, g) in VotesOf(released) && Vote(Precommit, key, h, r, hash) in VotesOf(released);
    var i :| 0 <= i < |released| && released[i].VoteOut?
      && Vote(released[i].kind, released[i].key, released[i].h, released[i].r, released[i].target) == Vote(Precommit, key, h, r, g);
    var j :| 0 <= j < |released| && released[j].VoteOut?
      && Vote(released[j].kind, released[j].key, released[j].h, released[j].r, released[j].target) == Vote(Precommit, key, h, r, hash);
    assert ActionStore.SameVote(released[i], released[j]);
  }

  /** If two mirrors ever commit different blocks at one height and round, then the validators who
    signed for both, all of them faulty, hold at least a Byzantine minority of the power. */
  lemma DisagreementNeedsEquivocators(net: Net, es: seq<NetEvent>, a: nat, b: nat, c: Commit, d: Commit)
    requires Initial(net) && a in NetRun(net, es).mirrors && b in NetRun(net, es).mirrors
    requires c in NetRun(net, es).mirrors[a].k.log && d in NetRun(net, es).mirrors[b].k.log
    requires c.h == d.h && c.r == d.r && c.vals == d.vals && c.hash != d.hash
    ensures Total(c.vals.powers) > 0
    ensures c.bits * d.bits <= FaultyIndices(c.vals, net.nodes.Keys)
    ensures Power(c.vals.powers, c.bits * d.bits) >= ByzantineMinority(Total(c.vals.powers))
  {
    NetRunOk(net, es);
    var end := NetRun(net, es);
    assert MirrorFine(end, a) && MirrorFine(end, b);
    assert CommitOk(end.signed, c) && CommitOk(end.signed, d);
    MajoritiesIntersect(c.vals.powers, c.bits, d.bits);
    forall i | i in c.bits * d.bits ensures i in FaultyIndices(c.vals, net.nodes.Keys) {
      if c.vals.keys[i] in end.nodes {
        HonestSignsOnce(end, c.vals.keys[i], c.h, c.r, c.hash, d.hash);
      }
    }
  }

  /** Agreement: while the faulty validators hold less than a Byzantine minority, no two mirrors commit
    different blocks at the same height and round. */
  lemma NoDisagreement(net: Net, es: seq<NetEvent>, a: nat, b: nat, c: Commit, d: Commit)
    requires Initial(net) && a in NetRun(net, es).mirrors && b in NetRun(net, es).mirrors
    requires c in NetRun(net, es).mirrors[a].k.log && d in NetRun(net, es).mirrors[b].k.log
    requires c.h == d.h && c.r == d.r && c.vals == d.vals
    requires Total(c.vals.powers) > 0
    requires Power(c.vals.powers, FaultyIndices(c.vals, net.nodes.Keys)) < ByzantineMinority(Total(c.vals.powers))
    ensures c.hash == d.hash
  {
    if c.hash != d.hash {
      DisagreementNeedsEquivocators(net, es, a, b, c, d);
      PowerMonotone(c.vals.powers, c.bits * d.bits, FaultyIndices(c.vals, net.nodes.Keys));
    }
  }

  /** A mirror commits its heights one after the other, each exactly once, and never nil; and every
    commit rests on signatures of a majority. */
  lemma CommitsInOrder(net: Net, es: seq<NetEvent>, a: nat)
    requires Initial(net) && a in NetRun(net, es).mirrors
    ensures
      var k := NetRun(net, es).mirrors[a].k;
      && |k.log| == k.voting.h - k.initialHeight
      && forall i :: 0 <= i < |k.log| ==> k.log[i].h == k.initialHeight + i && CommitOk(NetRun(net, es).signed, k.log[i])
  {
    NetRunOk(net, es);
    assert MirrorFine(NetRun(net, es), a);
    var k := NetRun(net, es).mirrors[a].k;
    assert forall i :: 0 <= i < |k.log| ==> k.log[i] in k.log;
  }
}
