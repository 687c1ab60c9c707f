/** What the mirror tells the local state machine and gossip besides views: that a height was committed,
  that a round was skipped, that a round was left with nothing committed. */
module Signals {
  import opened Options
  import opened Quorum
  import opened Votes
  import opened Views
  import opened KernelSpec
  import opened KernelInv
  import MirrorSystem
  import MirrorRuns
  import RoundSpec
  import opened Entrances

  /** The view shows why its round could be left: a nil majority, or everybody's precommit without any
    majority. */
  ghost predicate ShowsWhyLeft(v: View) {
    var t := v.summary.precommits;
    && SummaryFresh(v) && v.summary.available > 0
    && (|| (PowerFor(t, NIL_HASH) >= ByzantineMajority(v.summary.available))
        || (t.total == v.summary.available && forall hash :: PowerFor(t, hash) < ByzantineMajority(v.summary.available)))
  }

  /** A state machine that was given a view has been told of the commit exactly when its height is below
    the committing one. */
  ghost predicate CommitTold(k: K) {
    |k.sm.delivered| > 0 ==> k.initialHeight <= k.sm.h && (k.sm.heightCommitted <==> k.sm.h < k.committing.h)
  }

  /** One that was not given a view is behind the committing view, and nothing waits for it. */
  ghost predicate NothingForBehind(k: K) {
    |k.sm.delivered| == 0 && k.sm.h > 0 ==>
      && HRLess(k.sm.h, k.sm.r, k.committing.h, k.committing.r)
      && HRLess(k.sm.outgoing.h, k.sm.outgoing.r, k.sm.h, k.sm.r)
  }

  /** A waiting jump leads strictly ahead. */
  ghost predicate JumpsAhead(k: K) {
    k.sm.jumpAhead.Some? ==> HRLess(k.sm.h, k.sm.r, k.sm.jumpAhead.value.h, k.sm.jumpAhead.value.r)
  }

  /** A round offered to gossip as left is behind the voting view and shows why it was left. */
  ghost predicate LeftRoundOk(k: K) {
    k.nilVoted.Some? ==> ShowsWhyLeft(k.nilVoted.value) && HRLess(k.nilVoted.value.h, k.nilVoted.value.r, k.voting.h, k.voting.r)
  }

  ghost predicate Signaled(k: K) {
    CommitTold(k) && NothingForBehind(k) && JumpsAhead(k) && LeftRoundOk(k)
  }

  // ----- Steps -----

  lemma TouchSignals(k: K, id: ViewId, w: View)
    requires Aligned(k) && Signaled(k) && SameStamp(GetView(k, id), w)
    ensures Signaled(Touch(k, id, w))
  {
  }

  lemma IncrementSignals(k: K)
    requires Aligned(k) && Signaled(k)
    ensures Signaled(IncrementRound(k)) && Signaled(JumpRound(k))
  {
  }

  lemma AdvanceSignals(k: K)
    requires Aligned(k) && Signaled(k) && ShowsWhyLeft(k.voting)
    ensures Signaled(AdvanceRound(k))
  {
    var k1 := AdvanceRound(k);
    assert k1.voting.h == k.voting.h && k1.voting.r == k.voting.r + 1;
    assert k1.nilVoted == Some(k.voting);
    assert k1.committing == k.committing && k1.sm.h == k.sm.h && k1.sm.r == k.sm.r;
  }

  lemma ShiftSignals(k: K, header: Header)
    requires Inv(k) && Signaled(k)
    ensures Signaled(ShiftToCommitting(k, header))
  {
    var k1 := ShiftToCommitting(k, header);
    assert k1.committing.h == k.voting.h && k1.committing.r == k.voting.r && k1.voting.h == k.voting.h + 1;
    assert k1.nilVoted == k.nilVoted;
  }

  lemma CheckVotingShiftSignals(k: K)
    requires Inv(k) && Signaled(k) && CheckVotingShift(k).Ok?
    ensures Signaled(CheckVotingShift(k).value)
  {
    var vs := k.voting.summary;
    var hash := vs.precommits.mostVoted;
    if PowerFor(vs.precommits, hash) < ByzantineMajority(vs.available) {
      if vs.precommits.total == vs.available {
        forall g ensures PowerFor(vs.precommits, g) < ByzantineMajority(vs.available) {
          MostVotedIsMaximal(vs.precommits, g);
        }
        AdvanceSignals(k);
      }
    } else if hash == NIL_HASH {
      AdvanceSignals(k);
    } else {
      match FindHeader(k.voting.headers, hash) {
        case None =>
        case Some(header) => ShiftSignals(k.(log := k.log + [CommitRecord(k.voting, hash)]), header);
      }
    }
  }

  lemma CheckShiftSignals(k: K, id: ViewId, kind: Kind)
    requires Inv(k) && Signaled(k) && CheckShift(k, id, kind).Ok?
    ensures Signaled(CheckShift(k, id, kind).value)
  {
    IncrementSignals(k);
    if id.VotingView? && kind.Precommit? {
      CheckVotingShiftSignals(k);
    }
  }

  lemma StoreVotesSignals(k: K, id: ViewId, kind: Kind, updates: map<Hash, VoteUpdate>)
    requires Aligned(k) && Signaled(k) && StoreVotes(k, id, kind, updates).Ok?
    ensures Signaled(StoreVotes(k, id, kind, updates).value)
  {
    var v := GetView(k, id);
    TouchSignals(k, id, Resummarize(WithBallot(v, kind, ApplyUpdates(BallotOf(v, kind), updates)), kind));
  }

  lemma AddVotesSignals(k: K, kind: Kind, h: nat, r: nat, updates: map<Hash, VoteUpdate>)
    requires Inv(k) && Signaled(k) && AddVotes(k, kind, h, r, updates).Ok?
    ensures Signaled(AddVotes(k, kind, h, r, updates).value.0)
  {
    var f := FindView(k, h, r);
    if f.Found? {
      StoreVotesSignals(k, f.id, kind, updates);
      StoreVotesKeeps(k, f.id, kind, updates);
      var k1 := StoreVotes(k, f.id, kind, updates).value;
      if CheckShift(k1, f.id, kind).Ok? {
        CheckShiftSignals(k1, f.id, kind);
      }
    }
  }

  lemma BackfillSignals(signed: set<Vote>, k: K, carried: map<Hash, set<nat>>)
    requires Aligned(k) && Signaled(k) && BackfillCommitting(signed, k, carried).Ok?
    ensures Signaled(BackfillCommitting(signed, k, carried).value)
  {
    var proofs := Backfill(signed, k.committing, carried);
    TouchSignals(k, CommittingView, k.committing.(precommits := k.committing.precommits.(proofs := proofs)));
  }

  lemma AddHeaderSignals(signed: set<Vote>, k: K, ph: ProposedHeader)
    requires Inv(k) && Signaled(k) && ph.header.height > 0 && AddHeader(signed, k, ph).Ok?
    ensures Signaled(AddHeader(signed, k, ph).value)
  {
    var f := FindView(k, ph.header.height, ph.round);
    if f.Found? && !HasSignature(GetView(k, f.id).headers, ph.sig) {
      var v := GetView(k, f.id);
      var w := v.(headers := v.headers + [ph]);
      TouchKeeps(k, f.id, w);
      TouchSignals(k, f.id, w);
      if !f.id.CommittingView? {
        BackfillKeeps(signed, Touch(k, f.id, w), ph.header.prevCommit);
        BackfillSignals(signed, Touch(k, f.id, w), ph.header.prevCommit);
        var k2 := BackfillCommitting(signed, Touch(k, f.id, w), ph.header.prevCommit).value;
        if f.id.VotingView? && ph.header.hash in k2.voting.precommits.proofs {
          CheckVotingShiftSignals(k2);
        }
      }
    }
  }

  lemma LocalVoteSignals(signed: set<Vote>, k: K, kind: Kind, hash: Hash, i: nat)
    requires Inv(k) && Signaled(k) && LocalVote(signed, k, kind, hash, i).Ok?
    ensures Signaled(LocalVote(signed, k, kind, hash, i).value)
  {
    var f := FindView(k, k.sm.h, k.sm.r);
    if f.Found? && !f.id.NextRoundView? {
      var b := BallotOf(GetView(k, f.id), kind);
      var base := if hash in b.proofs then b.proofs[hash] else Proof(k.voting.vals.keys, {});
      var updates := map[hash := VoteUpdate(base.(bits := base.bits + {i}), Ver(b, hash))];
      if AddVotes(k, kind, k.sm.h, k.sm.r, updates).Ok? {
        AddVotesSignals(k, kind, k.sm.h, k.sm.r, updates);
      }
    }
  }

  lemma EnterSignals(k: K, h: nat, r: nat, key: Option<Key>)
    requires Inv(k) && Signaled(k) && h > 0 && HRLess(k.sm.h, k.sm.r, h, r) && Enter(k, h, r, key).Ok?
    ensures Signaled(Enter(k, h, r, key).value)
  {
  }

  lemma SendSignals(k: K)
    requires Inv(k) && Signaled(k)
    ensures Signaled(MarkSMSent(k))
  {
  }

  lemma StepSignals(signed: set<Vote>, m: MirrorSystem.Mirror, e: MirrorSystem.Event)
    requires MirrorSystem.MirrorOk(m) && Signaled(m.k) && MirrorSystem.Forward(m, e) && MirrorSystem.Step(signed, m, e).Ok?
    ensures Signaled(MirrorSystem.Step(signed, m, e).value.k)
  {
    match e {
      case Submit(id) =>
        if id in m.pending {
          var p := m.pending[id];
          AddVotesSignals(m.k, p.kind, p.h, p.r, p.updates);
        }
      case NewHeader(ph) =>
        if ph.header.height > 0 { AddHeaderSignals(signed, m.k, ph); }
      case SMEnter(h, r, key) => EnterSignals(m.k, h, r, key);
      case SMVote(kind, hash, i) => LocalVoteSignals(signed, m.k, kind, hash, i);
      case SMSend => SendSignals(m.k);
      case _ =>
    }
  }

  // ----- What holds in every run -----

  lemma {:induction false} RunSignals(initialHeight: nat, vals: ValSet, es: seq<MirrorRuns.Input>, j: nat)
    requires initialHeight > 0 && j <= |es| && MirrorRuns.ForwardRun(MirrorRuns.Start(initialHeight, vals), es)
    requires MirrorRuns.Run(MirrorRuns.Start(initialHeight, vals), es[..j]).Ok?
    ensures Signaled(MirrorRuns.Run(MirrorRuns.Start(initialHeight, vals), es[..j]).value.k)
  {
    var m := MirrorRuns.Start(initialHeight, vals);
    if j > 0 {
      MirrorRuns.RunNext(m, es, j - 1);
      RunSignals(initialHeight, vals, es, j - 1);
      MirrorRuns.RunKeeps(initialHeight, vals, es, j - 1);
      assert MirrorRuns.ForwardAt(m, es, j - 1);
      StepSignals(es[j - 1].signed, MirrorRuns.Run(m, es[..j - 1]).value, es[j - 1].event);
    }
  }

  /** In every reachable state: a state machine that was given a view of its round has been told that its
    height is committed exactly when the next height is committing; and every round offered to gossip as
    left carries the votes that allowed leaving it. */
  lemma SignalsAreTrue(initialHeight: nat, vals: ValSet, es: seq<MirrorRuns.Input>)
    requires initialHeight > 0 && MirrorRuns.ForwardRun(MirrorRuns.Start(initialHeight, vals), es)
    requires MirrorRuns.Run(MirrorRuns.Start(initialHeight, vals), es).Ok?
    ensures
      var k := MirrorRuns.Run(MirrorRuns.Start(initialHeight, vals), es).value.k;
      && (|k.sm.delivered| > 0 ==> (k.sm.heightCommitted <==> k.sm.h < k.committing.h))
      && (k.nilVoted.Some? ==> ShowsWhyLeft(k.nilVoted.value))
  {
    assert es[..|es|] == es;
    RunSignals(initialHeight, vals, es, |es|);
  }

  // ----- What the state machine makes of a jump -----

  /** A jump leads strictly ahead of where the mirror believes the state machine to be. */
  lemma JumpsLeadAhead(initialHeight: nat, vals: ValSet, es: seq<MirrorRuns.Input>)
    requires initialHeight > 0 && MirrorRuns.ForwardRun(MirrorRuns.Start(initialHeight, vals), es)
    requires MirrorRuns.Run(MirrorRuns.Start(initialHeight, vals), es).Ok?
    ensures
      var m := MirrorRuns.Run(MirrorRuns.Start(initialHeight, vals), es).value.k.sm;
      && (Output(m).Send? && Output(m).jump.Some? ==> HRLess(m.h, m.r, Output(m).jump.value.h, Output(m).jump.value.r))
      && (Output(m).Send? && Output(m).vrv.Some? ==> Matches(Output(m).vrv.value, m.h, m.r))
  {
    assert es[..|es|] == es;
    RunSignals(initialHeight, vals, es, |es|);
  }

  /** What the mirror sends, handled by a state machine that is where the mirror believes it to be and to
    which a view sent along is new. The jump is refused, with a panic, exactly when it leads to another
    height, or when the view sent along already ends the round and takes the state machine to the round
    of the jump or past it. Entering rounds is taken to succeed. */
  lemma JumpRefusedIff(initialHeight: nat, vals: ValSet, es: seq<MirrorRuns.Input>, l: RoundSpec.Life, resp: seq<RoundSpec.Response>)
    requires initialHeight > 0 && MirrorRuns.ForwardRun(MirrorRuns.Start(initialHeight, vals), es)
    requires MirrorRuns.Run(MirrorRuns.Start(initialHeight, vals), es).Ok?
    requires
      var k := MirrorRuns.Run(MirrorRuns.Start(initialHeight, vals), es).value.k;
      Output(k.sm).Send? && Output(k.sm).jump.Some? && l.mode.Live? && l.h == k.sm.h && l.r == k.sm.r
    requires
      var out := Output(MirrorRuns.Run(MirrorRuns.Start(initialHeight, vals), es).value.k.sm);
      if out.vrv.Some? then
        && l.view.Some? && out.vrv.value.version > l.view.value.version
        && HandledLive(l, out.vrv.value, resp)
        && var d := AfterHandling(l, out.vrv.value, resp);
        RoundSpec.AdvanceRound(d.l, d.rest).Ok?
      else RoundSpec.AdvanceRound(l, resp).Ok?
    ensures
      var out := Output(MirrorRuns.Run(MirrorRuns.Start(initialHeight, vals), es).value.k.sm);
      RoundSpec.ViewUpdate(l, out.vrv, out.jump, resp).Panic?
      <==> out.jump.value.h > l.h
           || (out.vrv.Some? && EndsRound(l.step, out.vrv.value) && out.jump.value.r <= EnteredRound(l.r + 1, resp))
  {
    var m := MirrorRuns.Run(MirrorRuns.Start(initialHeight, vals), es).value.k.sm;
    JumpsLeadAhead(initialHeight, vals, es);
    RefusedIff(l, Output(m).vrv, Output(m).jump.value, resp);
  }

  /** The view does not panic the state machine, nor end its live mode. */
  predicate HandledLive(l: RoundSpec.Life, v: View, resp: seq<RoundSpec.Response>) {
    var o := RoundSpec.OnView(l.(lastDelivered := v.version), v, resp);
    o.Ok? && o.value.l.mode.Live?
  }

  function AfterHandling(l: RoundSpec.Life, v: View, resp: seq<RoundSpec.Response>): RoundSpec.Done
    requires HandledLive(l, v, resp)
  {
    var d := RoundSpec.OnView(l.(lastDelivered := v.version), v, resp).value;
    d.(l := RoundSpec.KeepView(d.l, v))
  }

  lemma RefusedIff(l: RoundSpec.Life, vrv: Option<View>, jump: View, resp: seq<RoundSpec.Response>)
    requires HRLess(l.h, l.r, jump.h, jump.r)
    requires
      if vrv.Some? then
        && Matches(vrv.value, l.h, l.r) && l.view.Some? && vrv.value.version > l.view.value.version
        && HandledLive(l, vrv.value, resp)
        && var d := AfterHandling(l, vrv.value, resp);
        RoundSpec.AdvanceRound(d.l, d.rest).Ok?
      else RoundSpec.AdvanceRound(l, resp).Ok?
    ensures
      RoundSpec.ViewUpdate(l, vrv, Some(jump), resp).Panic?
      <==> jump.h > l.h || (vrv.Some? && EndsRound(l.step, vrv.value) && jump.r <= EnteredRound(l.r + 1, resp))
  {
    if vrv.Some? {
      ViewReaches(l.(lastDelivered := vrv.value.version), vrv.value, resp);
    }
  }

  /** And the mirror does send such jumps: whenever it commits the next height while the state machine is
    still on the committing view, the next output tells it to jump to that next height. */
  lemma CommitCausesJump(k: K, header: Header)
    requires Inv(k) && k.sm.h > 0 && Matches(k.committing, k.sm.h, k.sm.r)
    requires Matches(k.sm.outgoing, k.sm.h, k.sm.r)
    ensures
      var o := Output(ShiftToCommitting(k, header).sm);
      && o.Send? && o.jump.Some?
      && o.jump.value.h == k.sm.h + 1 && o.jump.value.r == k.voting.r
      && ShiftToCommitting(k, header).sm.heightCommitted
  {
  }
}
