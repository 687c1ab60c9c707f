/** A state machine that was left behind by a jump is told. */
module Jumps {
  import opened Options
  import opened Quorum
  import opened Votes
  import opened Views
  import opened KernelSpec
  import opened KernelInv
  import opened MirrorSystem
  import opened MirrorRuns
  import opened FirstStep
  import opened Feeding
  import opened Thresholds
  import Signals
  import Joint
  import RoundSpec

  /** A jump waits and is what is sent next. */
  predicate Told(m: SMViews) {
    m.jumpAhead.Some? && Output(m).Send? && Output(m).jump == m.jumpAhead
  }

  /** Votes for the next round that move voting one round on leave a state machine in the left round told to
    jump to the round voted on now, with its view. */
  lemma LeftBehindIsTold(k: K, kind: Kind, updates: map<Hash, VoteUpdate>)
    requires Inv(k) && Total(k.nextRound.vals.powers) > 0 && AllApply(BallotOf(k.nextRound, kind), updates)
    requires Matches(k.voting, k.sm.h, k.sm.r) && k.sm.h > 0
    requires AddVotes(k, kind, k.nextRound.h, k.nextRound.r, updates).Ok?
    requires ThirdVoted(With(k.nextRound, kind, updates), kind)
    ensures
      var k' := AddVotes(k, kind, k.nextRound.h, k.nextRound.r, updates).value.0;
      && Matches(k'.voting, k.voting.h, k.voting.r + 1)
      && k'.sm.jumpAhead == Some(k'.voting) && Told(k'.sm)
  {
    NextRoundVotesMove(k, kind, updates);
  }

  /** A waiting jump is sent next, but for one case: it leads to another height, and no view of the state
    machine's round is at hand. */
  lemma WaitingJumpSent(k: K)
    requires Inv(k) && OutgoingMarked(k) && k.sm.h > 0 && k.sm.jumpAhead.Some?
    requires HRLess(k.sm.h, k.sm.r, k.sm.jumpAhead.value.h, k.sm.jumpAhead.value.r)
    ensures Told(k.sm) <==> k.sm.jumpAhead.value.h == k.sm.h || Matches(k.sm.outgoing, k.sm.h, k.sm.r)
    ensures !Told(k.sm) ==> Output(k.sm).Idle?
  {
  }

  /** This submission brings a third of the power into the next round, while the state machine is in the
    voting one. */
  ghost predicate JumpsAway(m: Mirror, e: Event) {
    && e.Submit? && e.id in m.pending && AcceptsSubmission(m, e.id)
    && Matches(m.k.voting, m.k.sm.h, m.k.sm.r) && m.k.sm.h > 0
    && var p := m.pending[e.id];
    && Matches(m.k.nextRound, p.h, p.r) && Total(m.k.nextRound.vals.powers) > 0
    && ThirdVoted(With(m.k.nextRound, p.kind, p.updates), p.kind)
  }

  /** Nothing between the mirror and its state machine from `i` up to `j`. */
  ghost predicate NoMessage(es: seq<Input>, i: nat, j: nat)
    requires j <= |es|
  {
    forall t :: i <= t < j ==> Apart(es[t].event)
  }

  lemma {:induction false} JumpStays(initialHeight: nat, vals: ValSet, es: seq<Input>, i: nat, j: nat)
    requires initialHeight > 0 && i <= j <= |es| && ForwardRun(Start(initialHeight, vals), es) && NoMessage(es, i, j)
    requires Run(Start(initialHeight, vals), es[..i]).Ok? && Run(Start(initialHeight, vals), es[..j]).Ok?
    ensures
      var ki, kj := Run(Start(initialHeight, vals), es[..i]).value.k, Run(Start(initialHeight, vals), es[..j]).value.k;
      && (ki.sm.jumpAhead.Some? ==> kj.sm.jumpAhead.Some?)
      && kj.sm.h == ki.sm.h && kj.sm.r == ki.sm.r
    decreases j
  {
    if i < j {
      var m := Start(initialHeight, vals);
      RunNext(m, es, j - 1);
      JumpStays(initialHeight, vals, es, i, j - 1);
      RunKeeps(initialHeight, vals, es, j - 1);
      StepFed(es[j - 1].signed, Run(m, es[..j - 1]).value, es[j - 1].event);
    }
  }

  lemma JumpStepTells(signed: set<Vote>, m: Mirror, e: Event)
    requires MirrorOk(m) && JumpsAway(m, e)
    ensures Step(signed, m, e).Ok?
    ensures
      var k, k' := m.k, Step(signed, m, e).value.k;
      && Matches(k'.voting, k.voting.h, k.voting.r + 1) && k'.sm.h == k.sm.h && k'.sm.r == k.sm.r
      && k'.sm.jumpAhead == Some(k'.voting) && Told(k'.sm)
  {
    var p := m.pending[e.id];
    AcceptedShape(m.k, p.kind, p.h, p.r, p.updates);
    assert FindView(m.k, p.h, p.r) == Found(NextRoundView);
    LeftBehindIsTold(m.k, p.kind, p.updates);
    NextRoundVotesMove(m.k, p.kind, p.updates);
  }

  /** Over every run: from the submission that moves voting past the state machine's round on, a jump waits and
    is what is sent next, until it is sent or the next height is committed. The mirror never has nothing for
    the state machine in between. */
  lemma ToldUntilSent(initialHeight: nat, vals: ValSet, es: seq<Input>, i: nat, j: nat)
    requires initialHeight > 0 && i < j <= |es| && ForwardRun(Start(initialHeight, vals), es) && NoMessage(es, i, j)
    requires Run(Start(initialHeight, vals), es[..i]).Ok? && Run(Start(initialHeight, vals), es[..j]).Ok?
    requires JumpsAway(Run(Start(initialHeight, vals), es[..i]).value, es[i].event)
    ensures
      var kj := Run(Start(initialHeight, vals), es[..j]).value.k;
      && kj.sm.jumpAhead.Some?
      && (kj.committing.h <= kj.sm.h ==> Told(kj.sm) && kj.sm.jumpAhead.value.h == kj.sm.h && kj.sm.jumpAhead.value.r > kj.sm.r)
      && (Told(kj.sm) <==> kj.sm.jumpAhead.value.h == kj.sm.h || Matches(kj.sm.outgoing, kj.sm.h, kj.sm.r))
  {
    var m := Start(initialHeight, vals);
    MirrorRuns.RunFollows(initialHeight, vals, es, i + 1, j);
    MirrorRuns.RunFollows(initialHeight, vals, es, i, j);
    RunNext(m, es, i);
    JumpStepTells(es[i].signed, Run(m, es[..i]).value, es[i].event);
    JumpStays(initialHeight, vals, es, i + 1, j);
    RunMarked(initialHeight, vals, es, j);
    Signals.RunSignals(initialHeight, vals, es, j);
    RunKeeps(initialHeight, vals, es, j);
    WaitingJumpSent(Run(m, es[..j]).value.k);
  }

  /** In every run of mirror and state machine together: while a jump within its height waits for a live state
    machine, it leads ahead of it, and is what it is sent next. */
  lemma LiveIsTold(g: Joint.Genesis, ss: seq<Joint.Serving>, xs: seq<Joint.Move>)
    requires g.initialHeight > 0 && Joint.RunPair(g, ss, xs).Ok? && Joint.RunPair(g, ss, xs).value.l.mode.Live?
    requires
      var p := Joint.RunPair(g, ss, xs).value;
      p.m.k.sm.jumpAhead.Some? && p.m.k.sm.jumpAhead.value.h == p.l.h
    ensures
      var p := Joint.RunPair(g, ss, xs).value;
      Told(p.m.k.sm) && p.m.k.sm.jumpAhead.value.r > p.l.r
  {
    Joint.PairKeeps(g, ss, xs);
    var p := Joint.RunPair(g, ss, xs).value;
    Joint.LifeOk(g, p.l);
    Joint.ReachedOk(g, p.m);
    var es :| Joint.MirrorRun(g, es, p.m);
    assert es[..|es|] == es;
    RunMarked(g.initialHeight, g.vals, es, |es|);
    Signals.RunSignals(g.initialHeight, g.vals, es, |es|);
    WaitingJumpSent(p.m.k);
  }
}
