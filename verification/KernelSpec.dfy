/** The mirror kernel as a function of its state: what each atomic kernel step does. */
module KernelSpec {
  import opened Options
  import opened Quorum
  import opened Votes
  import opened Views

  // ----- State -----

  /** One slot of the gossip view manager: the stamp last sent, and the view to send. `sent` is
    history: the view that was last sent. */
  datatype Slot = Slot(sentH: nat, sentR: nat, sentV: nat, view: View, sent: View)

  /** The manager of the views sent to the local state machine. `delivered` records the versions sent
    since the last entrance; it is history, the engine keeps only `lastSent`. */
  datatype SMViews = SMViews(
    h: nat, r: nat, key: Option<Key>,
    lastSent: nat, jumpAhead: Option<View>, outgoing: View,
    heightCommitted: bool,
    delivered: seq<nat>)

  /** History: what was committed, by which precommits, under which validators. */
  datatype Commit = Commit(h: nat, r: nat, hash: Hash, vals: ValSet, bits: set<nat>)

  datatype K = K(
    initialHeight: nat,
    committing: View, voting: View, nextRound: View,
    committingHeader: Option<Header>,
    sm: SMViews,
    gossipC: Slot, gossipV: Slot, gossipN: Slot,
    nilVoted: Option<View>,
    log: seq<Commit>)

  datatype ViewId = CommittingView | VotingView | NextRoundView

  datatype FindResult = Found(id: ViewId) | Orphaned | LaterRound | BeforeCommitting | Future | Unhandled

  datatype AddResult = Accepted | Conflict | OutOfDate

  /** A step either yields a new state or hits a panic of the engine. */
  datatype Outcome<+T> = Ok(value: T) | Stuck

  function GetView(k: K, id: ViewId): View {
    match id
    case CommittingView => k.committing
    case VotingView => k.voting
    case NextRoundView => k.nextRound
  }

  function SetView(k: K, id: ViewId, v: View): K {
    match id
    case CommittingView => k.(committing := v)
    case VotingView => k.(voting := v)
    case NextRoundView => k.(nextRound := v)
  }

  function FindView(k: K, h: nat, r: nat): FindResult {
    if h == k.voting.h then
      if r == k.voting.r then Found(VotingView)
      else if r == k.voting.r + 1 then Found(NextRoundView)
      else if r < k.voting.r then Orphaned
      else LaterRound
    else if h == k.committing.h && r == k.committing.r then Found(CommittingView)
    else if h == k.committing.h && r < k.committing.r then BeforeCommitting
    else if h < k.committing.h then BeforeCommitting
    else if h > k.voting.h then Future
    else Unhandled
  }

  /** The state before any step, when nothing was stored. */
  function InitialK(initialHeight: nat, vals: ValSet): K {
    var blank := SMViews(0, 0, None, 0, None, ZERO_VIEW, false, []);
    var slot := Slot(0, 0, 0, ZERO_VIEW, ZERO_VIEW);
    var k := K(initialHeight, ZERO_VIEW, FreshView(initialHeight, 0, vals), FreshView(initialHeight, 1, vals),
               None, blank, slot, slot, slot, None, []);
    MarkNextRound(MarkVoting(k))
  }

  // ----- Marking a view as updated -----

  function Bump(v: View): View {
    v.(version := v.version + 1)
  }

  function MarkCommitting(k: K): K {
    var v := Bump(k.committing);
    var sm :=
      if Matches(v, k.sm.h, k.sm.r) then k.sm.(outgoing := v)
      else if HRLess(k.sm.h, k.sm.r, v.h, v.r) then k.sm.(jumpAhead := Some(v))
      else k.sm;
    k.(committing := v, gossipC := k.gossipC.(view := v), sm := sm)
  }

  function MarkVoting(k: K): K {
    var v := Bump(k.voting);
    var sm := if Matches(v, k.sm.h, k.sm.r) then k.sm.(outgoing := v) else k.sm;
    k.(voting := v, gossipV := k.gossipV.(view := v), sm := sm)
  }

  function MarkNextRound(k: K): K {
    var v := Bump(k.nextRound);
    k.(nextRound := v, gossipN := k.gossipN.(view := v))
  }

  function Mark(k: K, id: ViewId): K {
    match id
    case CommittingView => MarkCommitting(k)
    case VotingView => MarkVoting(k)
    case NextRoundView => MarkNextRound(k)
  }

  // ----- Shifts -----

  /** The voting view becomes the committing view; voting restarts one height up. */
  function ShiftToCommitting(k: K, header: Header): K {
    var signal := k.sm.h > 0 && k.sm.h == k.committing.h;
    var k1 := MarkCommitting(k.(committing := k.voting));
    var newHeight := k.voting.h + 1;
    var k2 := MarkVoting(k1.(voting := FreshView(newHeight, 0, header.nextVals)));
    var next := Reset(k2.nextRound).(
      h := newHeight, r := 1, vals := header.nextVals,
      summary := VoteSummary(k2.voting.summary.available, EMPTY_TALLY, EMPTY_TALLY));
    var k3 := MarkNextRound(k2.(nextRound := next));
    k3.(committingHeader := Some(header), sm := k3.sm.(heightCommitted := k3.sm.heightCommitted || signal))
  }

  /** Swaps the next round into voting and clears what becomes the new next round. */
  function IncrementRound(k: K): K {
    var k1 := MarkVoting(k.(voting := k.nextRound, nextRound := k.voting));
    MarkNextRound(k1.(nextRound := ResetForSameHeight(k1.nextRound).(r := k1.voting.r + 1)))
  }

  function AdvanceRound(k: K): K {
    IncrementRound(k.(nilVoted := Some(k.voting)))
  }

  function JumpRound(k: K): K {
    var k1 := IncrementRound(k);
    if k1.sm.h == k1.voting.h && k1.sm.r + 1 == k1.voting.r then
      k1.(sm := k1.sm.(jumpAhead := Some(k1.voting)))
    else k1
  }

  function FindHeader(headers: seq<ProposedHeader>, hash: Hash): Option<Header> {
    if |headers| == 0 then None
    else if headers[0].header.hash == hash then Some(headers[0].header)
    else FindHeader(headers[1..], hash)
  }

  function CommitRecord(v: View, hash: Hash): Commit {
    Commit(v.h, v.r, hash, v.vals, Signers(v.precommits, hash))
  }

  /** Consequences of the voting view's precommits. */
  function CheckVotingShift(k: K): Outcome<K> {
    var vs := k.voting.summary;
    if vs.available == 0 then Stuck
    else
      var hash := vs.precommits.mostVoted;
      if PowerFor(vs.precommits, hash) < ByzantineMajority(vs.available) then
        Ok(if vs.precommits.total == vs.available then AdvanceRound(k) else k)
      else if hash == NIL_HASH then Ok(AdvanceRound(k))
      else
        match FindHeader(k.voting.headers, hash)
        case None => Ok(k)
        case Some(header) =>
          Ok(ShiftToCommitting(k.(log := k.log + [CommitRecord(k.voting, hash)]), header))
  }

  function CheckNextRoundPrecommits(k: K): Outcome<K> {
    var vs := k.nextRound.summary;
    if vs.available == 0 then Stuck
    else if vs.precommits.total < ByzantineMinority(vs.available) then Ok(k)
    else if PowerFor(vs.precommits, vs.precommits.mostVoted) >= ByzantineMajority(vs.available) then Stuck
    else Ok(JumpRound(k))
  }

  function CheckNextRoundPrevotes(k: K): Outcome<K> {
    var vs := k.nextRound.summary;
    if vs.available == 0 then Stuck
    else if vs.prevotes.total < ByzantineMinority(vs.available) then Ok(k)
    else Ok(JumpRound(k))
  }

  // ----- Adding votes -----

  predicate Applies(b: Ballot, updates: map<Hash, VoteUpdate>, hash: Hash) {
    hash in updates && updates[hash].prevVersion == Ver(b, hash)
  }

  /** Compare-and-swap, block by block, on the block versions. */
  function ApplyUpdates(b: Ballot, updates: map<Hash, VoteUpdate>): Ballot {
    Ballot(
      b.proofs + map hash | hash in updates && Applies(b, updates, hash) :: updates[hash].proof,
      b.vers + map hash | hash in updates && Applies(b, updates, hash) :: Ver(b, hash) + 1)
  }

  predicate AllApply(b: Ballot, updates: map<Hash, VoteUpdate>) {
    forall hash :: hash in updates ==> Applies(b, updates, hash)
  }

  predicate AnyApplies(b: Ballot, updates: map<Hash, VoteUpdate>) {
    exists hash :: hash in updates && Applies(b, updates, hash)
  }

  ghost function Resummarize(v: View, kind: Kind): View {
    if kind.Prevote? then v.(summary := v.summary.(prevotes := TallyOf(v.vals.powers, v.prevotes.proofs)))
    else v.(summary := v.summary.(precommits := TallyOf(v.vals.powers, v.precommits.proofs)))
  }

  /** Stores the applicable updates in a view, refreshes its summary and marks it. The zero view has
    no maps to store into. */
  ghost function StoreVotes(k: K, id: ViewId, kind: Kind, updates: map<Hash, VoteUpdate>): Outcome<K> {
    var v := GetView(k, id);
    var b := BallotOf(v, kind);
    if !AnyApplies(b, updates) then Ok(k)
    else if v.version == 0 then Stuck
    else Ok(Mark(SetView(k, id, Resummarize(WithBallot(v, kind, ApplyUpdates(b, updates)), kind)), id))
  }

  function AddResultFor(b: Ballot, updates: map<Hash, VoteUpdate>): AddResult {
    if AllApply(b, updates) then Accepted else Conflict
  }

  /** The view shifts a vote of this kind in this view can cause. */
  function CheckShift(k: K, id: ViewId, kind: Kind): Outcome<K> {
    match (kind, id)
    case (Precommit, VotingView) => CheckVotingShift(k)
    case (Precommit, NextRoundView) => CheckNextRoundPrecommits(k)
    case (Prevote, NextRoundView) => CheckNextRoundPrevotes(k)
    case _ => Ok(k)
  }

  /** addPrevote and addPrecommit. The response is sent before any shift. */
  ghost function AddVotes(k: K, kind: Kind, h: nat, r: nat, updates: map<Hash, VoteUpdate>): Outcome<(K, AddResult)> {
    match FindView(k, h, r)
    case Found(id) =>
      var res := AddResultFor(BallotOf(GetView(k, id), kind), updates);
      (match StoreVotes(k, id, kind, updates)
       case Stuck => Stuck
       case Ok(k1) =>
         if res == Accepted then
           match CheckShift(k1, id, kind)
           case Stuck => Stuck
           case Ok(k2) => Ok((k2, res))
         else Ok((k1, res)))
    case Orphaned => Ok((k, OutOfDate))
    case BeforeCommitting => Ok((k, OutOfDate))
    case _ => Stuck
  }

  // ----- Proposed headers -----

  /** Precommits carried by a header are merged into the committing view's proofs. */
  ghost function Backfill(signed: set<Vote>, v: View, carried: map<Hash, set<nat>>): map<Hash, Proof>
    requires carried.Keys <= v.precommits.proofs.Keys
  {
    v.precommits.proofs + map hash | hash in carried ::
      MergeSparse(signed, v.precommits.proofs[hash], Precommit, v.h, v.r, hash, carried[hash])
  }

  ghost function BackfillCommitting(signed: set<Vote>, k: K, carried: map<Hash, set<nat>>): Outcome<K> {
    if !(carried.Keys <= k.committing.precommits.proofs.Keys) then Stuck
    else
      var proofs := Backfill(signed, k.committing, carried);
      if proofs == k.committing.precommits.proofs then Ok(k)
      else Ok(MarkCommitting(k.(committing := k.committing.(precommits := k.committing.precommits.(proofs := proofs)))))
  }

  predicate HasSignature(headers: seq<ProposedHeader>, sig: string) {
    exists i :: 0 <= i < |headers| && headers[i].sig == sig
  }

  ghost function AddHeader(signed: set<Vote>, k: K, ph: ProposedHeader): Outcome<K> {
    match FindView(k, ph.header.height, ph.round)
    case Found(id) =>
      var v := GetView(k, id);
      if HasSignature(v.headers, ph.sig) then Ok(k)
      else
        var k1 := Mark(SetView(k, id, v.(headers := v.headers + [ph])), id);
        if id.CommittingView? then Ok(k1)
        else
          (match BackfillCommitting(signed, k1, ph.header.prevCommit)
           case Stuck => Stuck
           case Ok(k2) =>
             if id.VotingView? && ph.header.hash in k2.voting.precommits.proofs then CheckVotingShift(k2) else Ok(k2))
    case Unhandled => Stuck
    case _ => Ok(k)
  }

  // ----- The local state machine -----

  /** The state machine enters a height and round. It gets the matching view, or a committed header
    when the round is before the committing view. */
  function Enter(k: K, h: nat, r: nat, key: Option<Key>): Outcome<K> {
    var k1 := k.(sm := k.sm.(h := h, r := r, key := key, lastSent := 0, jumpAhead := None,
                             heightCommitted := false, delivered := []));
    match FindView(k1, h, r)
    case Found(id) =>
      var version := GetView(k1, id).version;
      Ok(k1.(sm := k1.sm.(lastSent := version, delivered := [version])))
    case BeforeCommitting => Ok(k1)
    case _ => Stuck
  }

  /** What would be sent to the state machine now. */
  datatype SMOutput = Idle | Send(vrv: Option<View>, jump: Option<View>, sentVersion: nat)

  function Output(m: SMViews): SMOutput {
    var newer := m.outgoing.version > m.lastSent;
    var sentVersion := if newer then m.outgoing.version else if m.jumpAhead.Some? then m.lastSent else 0;
    if Matches(m.outgoing, m.h, m.r) && sentVersion > 0 then
      Send(if newer then Some(m.outgoing) else None, m.jumpAhead, sentVersion)
    else if m.jumpAhead.Some? && m.jumpAhead.value.h == m.h && m.jumpAhead.value.r > m.r then
      Send(None, m.jumpAhead, m.lastSent)
    else Idle
  }

  function MarkSMSent(k: K): K {
    match Output(k.sm)
    case Idle => k
    case Send(vrv, _, sentVersion) =>
      k.(sm := k.sm.(jumpAhead := None, lastSent := sentVersion,
                     delivered := if vrv.Some? then k.sm.delivered + [vrv.value.version] else k.sm.delivered))
  }

  /** A vote from the local state machine, its key being at index `i` of the candidate keys. */
  ghost function LocalVote(signed: set<Vote>, k: K, kind: Kind, hash: Hash, i: nat): Outcome<K> {
    match FindView(k, k.sm.h, k.sm.r)
    case Found(id) =>
      if id.NextRoundView? then Ok(k)
      else
        var b := BallotOf(GetView(k, id), kind);
        var base := if hash in b.proofs then b.proofs[hash] else Proof(k.voting.vals.keys, {});
        if i < |base.keys| && k.sm.key == Some(base.keys[i])
           && Vote(kind, base.keys[i], k.sm.h, k.sm.r, hash) in signed then
          var updates := map[hash := VoteUpdate(base.(bits := base.bits + {i}), Ver(b, hash))];
          match AddVotes(k, kind, k.sm.h, k.sm.r, updates)
          case Stuck => Stuck
          case Ok(p) => Ok(p.0)
        else Ok(k)
    case Unhandled => Stuck
    case _ => Ok(k)
  }

  // ----- Gossip -----

  predicate HasBeenSent(s: Slot) {
    s.sentH == s.view.h && s.sentR == s.view.r && s.sentV == s.view.version
  }

  function SentSlot(s: Slot): Slot {
    s.(sentH := s.view.h, sentR := s.view.r, sentV := s.view.version, sent := s.view)
  }

  /** Sends whatever is unsent to the gossip strategy. */
  function SendGossip(k: K): K {
    k.(gossipC := SentSlot(k.gossipC), gossipV := SentSlot(k.gossipV), gossipN := SentSlot(k.gossipN), nilVoted := None)
  }
}
