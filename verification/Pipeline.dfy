/** The validators in the mirror's voting view, and those in force in the state machine. */
module Pipeline {
  import opened Options
  import opened Votes
  import opened Views
  import opened KernelSpec
  import opened KernelInv
  import MirrorSystem
  import MirrorRuns
  import RoundSpec
  import RoundRuns

  /** Voting's validators only change by a commit, to those the committed header names. */
  ghost predicate ValsFollow(k: K, k': K) {
    || (k'.committingHeader == k.committingHeader && k'.voting.vals == k.voting.vals)
    || (k'.committingHeader.Some? && k'.voting.vals == k'.committingHeader.value.nextVals)
  }

  lemma CheckShiftVals(k: K, id: ViewId, kind: Kind)
    requires Aligned(k) && CheckShift(k, id, kind).Ok?
    ensures ValsFollow(k, CheckShift(k, id, kind).value)
  {
  }

  lemma StoreVotesVals(k: K, id: ViewId, kind: Kind, updates: map<Hash, VoteUpdate>)
    requires StoreVotes(k, id, kind, updates).Ok?
    ensures var k1 := StoreVotes(k, id, kind, updates).value;
            k1.committingHeader == k.committingHeader && k1.voting.vals == k.voting.vals
  {
  }

  lemma AddVotesVals(k: K, kind: Kind, h: nat, r: nat, updates: map<Hash, VoteUpdate>)
    requires Inv(k) && AddVotes(k, kind, h, r, updates).Ok?
    ensures ValsFollow(k, AddVotes(k, kind, h, r, updates).value.0)
  {
    var f := FindView(k, h, r);
    if f.Found? {
      StoreVotesVals(k, f.id, kind, updates);
      StoreVotesKeeps(k, f.id, kind, updates);
      var k1 := StoreVotes(k, f.id, kind, updates).value;
      if CheckShift(k1, f.id, kind).Ok? {
        CheckShiftVals(k1, f.id, kind);
      }
    }
  }

  lemma TouchVals(k: K, id: ViewId, w: View)
    requires SameStamp(GetView(k, id), w)
    ensures Touch(k, id, w).committingHeader == k.committingHeader && Touch(k, id, w).voting.vals == k.voting.vals
  {
  }

  lemma BackfillVals(signed: set<Vote>, k: K, carried: map<Hash, set<nat>>)
    requires BackfillCommitting(signed, k, carried).Ok?
    ensures BackfillCommitting(signed, k, carried).value.committingHeader == k.committingHeader
  {
  }

  lemma AddHeaderVals(signed: set<Vote>, k: K, ph: ProposedHeader)
    requires Inv(k) && ph.header.height > 0 && AddHeader(signed, k, ph).Ok?
    ensures ValsFollow(k, AddHeader(signed, k, ph).value)
  {
    var f := FindView(k, ph.header.height, ph.round);
    if f.Found? && !HasSignature(GetView(k, f.id).headers, ph.sig) {
      var v := GetView(k, f.id);
      var w := v.(headers := v.headers + [ph]);
      TouchKeeps(k, f.id, w);
      TouchVals(k, f.id, w);
      if !f.id.CommittingView? {
        BackfillKeeps(signed, Touch(k, f.id, w), ph.header.prevCommit);
        BackfillVals(signed, Touch(k, f.id, w), ph.header.prevCommit);
        var k2 := BackfillCommitting(signed, Touch(k, f.id, w), ph.header.prevCommit).value;
        if f.id.VotingView? && ph.header.hash in k2.voting.precommits.proofs {
          CheckShiftVals(k2, VotingView, Precommit);
        }
      }
    }
  }

  lemma LocalVoteVals(signed: set<Vote>, k: K, kind: Kind, hash: Hash, i: nat)
    requires Inv(k) && LocalVote(signed, k, kind, hash, i).Ok?
    ensures ValsFollow(k, LocalVote(signed, k, kind, hash, i).value)
  {
    var f := FindView(k, k.sm.h, k.sm.r);
    if f.Found? && !f.id.NextRoundView? {
      var b := BallotOf(GetView(k, f.id), kind);
      var base := if hash in b.proofs then b.proofs[hash] else Proof(k.voting.vals.keys, {});
      var updates := map[hash := VoteUpdate(base.(bits := base.bits + {i}), Ver(b, hash))];
      if AddVotes(k, kind, k.sm.h, k.sm.r, updates).Ok? {
        AddVotesVals(k, kind, k.sm.h, k.sm.r, updates);
      }
    }
  }

  lemma StepVals(signed: set<Vote>, m: MirrorSystem.Mirror, e: MirrorSystem.Event)
    requires MirrorSystem.MirrorOk(m) && MirrorSystem.Step(signed, m, e).Ok?
    ensures ValsFollow(m.k, MirrorSystem.Step(signed, m, e).value.k)
  {
    match e {
      case Submit(id) =>
        if id in m.pending {
          var p := m.pending[id];
          AddVotesVals(m.k, p.kind, p.h, p.r, p.updates);
        }
      case NewHeader(ph) =>
        if ph.header.height > 0 { AddHeaderVals(signed, m.k, ph); }
      case SMVote(kind, hash, i) => LocalVoteVals(signed, m.k, kind, hash, i);
      case _ =>
    }
  }

  /** In every reachable state the voting validators are those named by the last committed header, or
    the initial ones before anything was committed. */
  lemma {:induction false} VotingValsNamed(initialHeight: nat, vals: ValSet, es: seq<MirrorRuns.Input>, j: nat)
    requires initialHeight > 0 && j <= |es| && MirrorRuns.ForwardRun(MirrorRuns.Start(initialHeight, vals), es)
    requires MirrorRuns.Run(MirrorRuns.Start(initialHeight, vals), es[..j]).Ok?
    ensures
      var k := MirrorRuns.Run(MirrorRuns.Start(initialHeight, vals), es[..j]).value.k;
      k.voting.vals == if k.committingHeader.Some? then k.committingHeader.value.nextVals else vals
  {
    var m := MirrorRuns.Start(initialHeight, vals);
    if j > 0 {
      MirrorRuns.RunNext(m, es, j - 1);
      VotingValsNamed(initialHeight, vals, es, j - 1);
      MirrorRuns.RunKeeps(initialHeight, vals, es, j - 1);
      StepVals(es[j - 1].signed, MirrorRuns.Run(m, es[..j - 1]).value, es[j - 1].event);
    }
  }

  /** The mirror and the state machine agree on who votes. When the header the mirror committed last is
    one that fitted in the state machine at that height, the voting validators are those in force once
    the state machine reaches the voting height; at the initial height both are the genesis set. */
  lemma VotingValsAreCurrent(vals: ValSet, es: seq<MirrorRuns.Input>, c: RoundRuns.Config, ts: seq<RoundRuns.Turn>, i: nat, ph: ProposedHeader)
    requires c.initialHeight > 0 && c.vals == vals
    requires MirrorRuns.ForwardRun(MirrorRuns.Start(c.initialHeight, vals), es)
    requires MirrorRuns.Run(MirrorRuns.Start(c.initialHeight, vals), es).Ok?
    requires RoundRuns.Starts(c) && i <= |ts| && RoundRuns.RunOf(c, ts).Ok? && RoundRuns.RunOf(c, ts[..i]).Ok?
    requires
      var k := MirrorRuns.Run(MirrorRuns.Start(c.initialHeight, vals), es).value.k;
      var before, now := RoundRuns.RunOf(c, ts[..i]).value, RoundRuns.RunOf(c, ts).value;
      && now.h == k.voting.h
      && (now.h > c.initialHeight ==>
            before.h + 1 == now.h && RoundSpec.Fits(before, ph) && k.committingHeader == Some(ph.header))
    ensures MirrorRuns.Run(MirrorRuns.Start(c.initialHeight, vals), es).value.k.voting.vals == RoundRuns.RunOf(c, ts).value.curVals
  {
    assert es[..|es|] == es;
    VotingValsNamed(c.initialHeight, vals, es, |es|);
    MirrorRuns.RunKeeps(c.initialHeight, vals, es, |es|);
    MirrorRuns.RunFollows(c.initialHeight, vals, es, 0, |es|);
    var k := MirrorRuns.Run(MirrorRuns.Start(c.initialHeight, vals), es).value.k;
    assert k.initialHeight == c.initialHeight;
    if k.voting.h > c.initialHeight {
      RoundRuns.FittingHeaderNamesNextVals(c, ts, i, ph);
    } else {
      RoundRuns.ValidatorPipeline(c, ts);
    }
  }
}
