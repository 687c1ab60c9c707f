/** What each event makes the state machine do and ask for, told by who voted for what. */
module Requests {
  import opened Options
  import opened Quorum
  import opened Votes
  import opened Views
  import KernelSpec
  import opened RoundSpec
  import opened RoundInv
  import opened RoundRuns
  import opened Entrances
  import opened FirstStep
  import RoundSteps

  /** The state machine stays in its round, at this step, and asks for these, in order. */
  predicate Does(l: Life, m: Life, step: Step, extra: seq<Request>) {
    m.h == l.h && m.r == l.r && m.mode == l.mode && m.step == step && m.log == l.log + extra
  }

  ghost predicate Majority(v: View, kind: Kind) {
    Total(v.vals.powers) > 0 && VotedPower(v, kind) >= ByzantineMajority(Total(v.vals.powers))
  }

  ghost predicate Minority(v: View, kind: Kind) {
    Total(v.vals.powers) > 0 && VotedPower(v, kind) >= ByzantineMinority(Total(v.vals.powers))
  }

  /** A majority precommitted one target. */
  ghost predicate Decided(v: View) {
    Total(v.vals.powers) > 0 && SomeMajority(v, Precommit)
  }

  /** The target ahead is nil. */
  predicate ForNil(v: View) {
    v.summary.precommits.mostVoted == NIL_HASH
  }

  function TimerFor(l: Life, s: Step): Request {
    StartTimer(Timer(s, l.h, l.r), true)
  }

  /** The finalization of the block ahead, if its header is there. */
  function Finalizes(l: Life, v: View): seq<Request> {
    match KernelSpec.FindHeader(v.headers, v.summary.precommits.mostVoted)
    case None => []
    case Some(header) => [Finalize(l.h, l.r, header)]
  }

  function Considers(l: Life, phs: seq<ProposedHeader>): seq<Request> {
    if |phs| > 0 then [Consider(l.h, l.r, phs, true)] else []
  }

  lemma CommittedDoes(l: Life, v: View, resp: seq<Response>)
    requires l.timer.None? && !ForNil(v)
    ensures Committed(l, v, resp).Ok?
    ensures Does(l, Committed(l, v, resp).value.l, CommitWait, [TimerFor(l, CommitWait)] + Finalizes(l, v))
  {
    var log := l.log + [TimerFor(l, CommitWait)];
    match KernelSpec.FindHeader(v.headers, v.summary.precommits.mostVoted) {
      case None => assert log == l.log + ([TimerFor(l, CommitWait)] + Finalizes(l, v));
      case Some(header) => assert log + [Finalize(l.h, l.r, header)] == l.log + ([TimerFor(l, CommitWait)] + Finalizes(l, v));
    }
  }

  // ----- While a proposal is awaited -----

  lemma ProposalDecided(l: Life, v: View, resp: seq<Response>)
    requires Inv(l) && l.mode.Live? && l.step.AwaitingProposal? && SummaryFresh(v) && Decided(v) && !ForNil(v)
    ensures OnProposalView(l, v, resp).Ok?
    ensures Does(l, OnProposalView(l, v, resp).value.l, CommitWait, [TimerFor(l, CommitWait)] + Finalizes(l, v))
  {
    MostVotedDecides(v, Precommit);
    CommittedDoes(l.(timer := None), v, resp);
    assert OnProposalView(l, v, resp) == Committed(l.(timer := None), v, resp);
  }

  lemma ProposalSplit(l: Life, v: View, resp: seq<Response>)
    requires Inv(l) && l.mode.Live? && l.step.AwaitingProposal? && SummaryFresh(v) && !Decided(v) && Majority(v, Precommit)
    ensures OnProposalView(l, v, resp).Ok?
    ensures Does(l, OnProposalView(l, v, resp).value.l, PrecommitDelay, [TimerFor(l, PrecommitDelay), Decide(l.h, l.r, true)])
  {
    MostVotedDecides(v, Precommit);
    assert l.log + [TimerFor(l, PrecommitDelay)] + [Decide(l.h, l.r, true)]
        == l.log + [TimerFor(l, PrecommitDelay), Decide(l.h, l.r, true)];
  }

  lemma ProposalFewPrecommits(l: Life, v: View, resp: seq<Response>)
    requires Inv(l) && l.mode.Live? && l.step.AwaitingProposal? && SummaryFresh(v)
    requires Minority(v, Precommit) && !Majority(v, Precommit)
    ensures OnProposalView(l, v, resp).Ok?
    ensures Does(l, OnProposalView(l, v, resp).value.l, AwaitingPrecommits, [Decide(l.h, l.r, true)])
  {
    MostVotedDecides(v, Precommit);
  }

  lemma ProposalPrevoted(l: Life, v: View, resp: seq<Response>)
    requires Inv(l) && l.mode.Live? && l.step.AwaitingProposal? && SummaryFresh(v)
    requires Total(v.vals.powers) > 0 && !Minority(v, Precommit) && SomeMajority(v, Prevote)
    ensures OnProposalView(l, v, resp).Ok?
    ensures Does(l, OnProposalView(l, v, resp).value.l, AwaitingPrecommits, [Choose(l.h, l.r, Fitting(l, v.headers), true)])
  {
    MostVotedDecides(v, Precommit);
    MostVotedDecides(v, Prevote);
    FittingSame(l, l.(timer := None), v.headers);
  }

  lemma {:induction false} FittingSame(l: Life, m: Life, phs: seq<ProposedHeader>)
    requires m.prevFinAppHash == l.prevFinAppHash && m.curVals == l.curVals && m.prevFinNextVals == l.prevFinNextVals
    ensures Fitting(m, phs) == Fitting(l, phs)
  {
    if |phs| > 0 { FittingSame(l, m, phs[..|phs| - 1]); }
  }

  lemma ProposalPrevoteSplit(l: Life, v: View, resp: seq<Response>)
    requires Inv(l) && l.mode.Live? && l.step.AwaitingProposal? && SummaryFresh(v)
    requires Total(v.vals.powers) > 0 && !Minority(v, Precommit) && !SomeMajority(v, Prevote) && Majority(v, Prevote)
    ensures OnProposalView(l, v, resp).Ok?
    ensures Does(l, OnProposalView(l, v, resp).value.l, PrevoteDelay, [TimerFor(l, PrevoteDelay)] + Considers(l, Fitting(l, v.headers)))
  {
    MostVotedDecides(v, Precommit);
    MostVotedDecides(v, Prevote);
    var l1 := l.(timer := None);
    FittingSame(l, l1, v.headers);
    var l2 := StartDelay(l1, PrevoteDelay);
    assert OnProposalView(l, v, resp) == Ok(Done(AskConsider(l2, Fitting(l1, v.headers)), true, resp));
    assert l.log + [TimerFor(l, PrevoteDelay)] + Considers(l, Fitting(l, v.headers))
        == l.log + ([TimerFor(l, PrevoteDelay)] + Considers(l, Fitting(l, v.headers)));
  }

  lemma ProposalWaits(l: Life, v: View, resp: seq<Response>)
    requires Inv(l) && l.mode.Live? && l.step.AwaitingProposal? && SummaryFresh(v)
    requires Total(v.vals.powers) > 0 && !Minority(v, Precommit) && !Majority(v, Prevote)
    ensures OnProposalView(l, v, resp).Ok? && l.view.Some?
    ensures
      var more := |v.headers| > |l.view.value.headers| && |Fitting(l, v.headers)| > |Fitting(l, l.view.value.headers)|;
      Does(l, OnProposalView(l, v, resp).value.l, AwaitingProposal, if more then [Consider(l.h, l.r, Fitting(l, v.headers), true)] else [])
  {
    MostVotedDecides(v, Precommit);
    MostVotedDecides(v, Prevote);
    assert l.log + [] == l.log;
  }

  // ----- While prevotes are awaited -----

  lemma PrevoteDecided(l: Life, v: View, resp: seq<Response>)
    requires Inv(l) && l.mode.Live? && (l.step.AwaitingPrevotes? || l.step.PrevoteDelay?) && SummaryFresh(v) && Decided(v) && !ForNil(v)
    ensures OnPrevoteView(l, v, resp).Ok?
    ensures Does(l, OnPrevoteView(l, v, resp).value.l, CommitWait, [TimerFor(l, CommitWait)] + Finalizes(l, v))
  {
    MostVotedDecides(v, Precommit);
    assert StopIf(l, PrevoteDelay) == Ok(l.(timer := None));
    CommittedDoes(l.(timer := None), v, resp);
    assert OnPrevoteView(l, v, resp) == Committed(l.(timer := None), v, resp);
  }

  lemma DelayDecides(l: Life, l1: Life)
    requires l1 == l.(timer := None) && l.precommitCh
    ensures Does(l, AskDecide(StartDelay(l1, PrecommitDelay)), PrecommitDelay, [TimerFor(l, PrecommitDelay), Decide(l.h, l.r, true)])
  {
    assert l.log + [TimerFor(l, PrecommitDelay)] + [Decide(l.h, l.r, true)]
        == l.log + [TimerFor(l, PrecommitDelay), Decide(l.h, l.r, true)];
  }

  lemma PrevoteSplit(l: Life, v: View, resp: seq<Response>)
    requires Inv(l) && l.mode.Live? && (l.step.AwaitingPrevotes? || l.step.PrevoteDelay?) && SummaryFresh(v)
    requires !Decided(v) && Majority(v, Precommit)
    ensures OnPrevoteView(l, v, resp).Ok?
    ensures Does(l, OnPrevoteView(l, v, resp).value.l, PrecommitDelay, [TimerFor(l, PrecommitDelay), Decide(l.h, l.r, true)])
  {
    MostVotedDecides(v, Precommit);
    var l1 := l.(timer := None);
    assert StopIf(l, PrevoteDelay) == Ok(l1);
    assert OnPrevoteView(l, v, resp) == Ok(Done(AskDecide(StartDelay(l1, PrecommitDelay)), true, resp));
    DelayDecides(l, l1);
  }

  lemma PrevotesDecide(l: Life, v: View, resp: seq<Response>)
    requires Inv(l) && l.mode.Live? && (l.step.AwaitingPrevotes? || l.step.PrevoteDelay?) && SummaryFresh(v)
    requires Total(v.vals.powers) > 0 && !Majority(v, Precommit) && SomeMajority(v, Prevote)
    ensures OnPrevoteView(l, v, resp).Ok?
    ensures Does(l, OnPrevoteView(l, v, resp).value.l, AwaitingPrecommits, [Decide(l.h, l.r, true)])
  {
    MostVotedDecides(v, Precommit);
    MostVotedDecides(v, Prevote);
    var l1 := l.(timer := None);
    assert StopIf(l, PrevoteDelay) == Ok(l1);
    assert OnPrevoteView(l, v, resp) == Ok(Done(AskDecide(l1.(step := AwaitingPrecommits)), true, resp));
  }

  lemma PrevotesWait(l: Life, v: View, resp: seq<Response>)
    requires Inv(l) && l.mode.Live? && (l.step.AwaitingPrevotes? || l.step.PrevoteDelay?) && SummaryFresh(v)
    requires Total(v.vals.powers) > 0 && !Majority(v, Precommit) && !SomeMajority(v, Prevote)
    ensures OnPrevoteView(l, v, resp).Ok?
    ensures
      var m := OnPrevoteView(l, v, resp).value.l;
      if l.step.AwaitingPrevotes? && Majority(v, Prevote) then Does(l, m, PrevoteDelay, [TimerFor(l, PrevoteDelay)]) else m == l
  {
    MostVotedDecides(v, Precommit);
    MostVotedDecides(v, Prevote);
  }

  // ----- While precommits are awaited -----

  lemma PrecommitDecided(l: Life, v: View, resp: seq<Response>)
    requires Inv(l) && l.mode.Live? && (l.step.AwaitingPrecommits? || l.step.PrecommitDelay?) && SummaryFresh(v) && Decided(v) && !ForNil(v)
    ensures OnPrecommitView(l, v, resp).Ok?
    ensures Does(l, OnPrecommitView(l, v, resp).value.l, CommitWait, [TimerFor(l, CommitWait)] + Finalizes(l, v))
  {
    MostVotedDecides(v, Precommit);
    assert StopIf(l, PrecommitDelay) == Ok(l.(timer := None));
    CommittedDoes(l.(timer := None), v, resp);
    assert OnPrecommitView(l, v, resp) == Committed(l.(timer := None), v, resp);
  }

  lemma PrecommitsWait(l: Life, v: View, resp: seq<Response>)
    requires Inv(l) && l.mode.Live? && (l.step.AwaitingPrecommits? || l.step.PrecommitDelay?) && SummaryFresh(v)
    requires Total(v.vals.powers) > 0 && !Decided(v) && VotedPower(v, Precommit) != Total(v.vals.powers)
    ensures OnPrecommitView(l, v, resp).Ok?
    ensures
      var m := OnPrecommitView(l, v, resp).value.l;
      if l.step.AwaitingPrecommits? && Majority(v, Precommit) then Does(l, m, PrecommitDelay, [TimerFor(l, PrecommitDelay)]) else m == l
  {
    MostVotedDecides(v, Precommit);
  }

  // ----- Leaving -----

  /** By the votes of the view, the round is over without a block. */
  ghost predicate Over(l: Life, v: View) {
    && Total(v.vals.powers) > 0
    && (|| (Rank(l.step) <= 5 && Decided(v) && ForNil(v))
        || (Rank(l.step) in {4, 5} && !Decided(v) && VotedPower(v, Precommit) == Total(v.vals.powers)))
  }

  lemma OverIff(l: Life, v: View)
    requires SummaryFresh(v) && v.summary.available > 0
    ensures Over(l, v) <==> EndsRound(l.step, v)
  {
    MostVotedDecides(v, Precommit);
  }

  // ----- All steps -----

  /** What a view makes the state machine do: the step it goes to and what it asks for, by the votes. */
  ghost predicate ViewDoes(l: Life, v: View, m: Life) {
    Total(v.vals.powers) > 0 &&
    if Rank(l.step) <= 5 && Decided(v) then Does(l, m, CommitWait, [TimerFor(l, CommitWait)] + Finalizes(l, v))
    else
      match l.step
      case AwaitingProposal =>
        if Majority(v, Precommit) then Does(l, m, PrecommitDelay, [TimerFor(l, PrecommitDelay), Decide(l.h, l.r, true)])
        else if Minority(v, Precommit) then Does(l, m, AwaitingPrecommits, [Decide(l.h, l.r, true)])
        else if SomeMajority(v, Prevote) then Does(l, m, AwaitingPrecommits, [Choose(l.h, l.r, Fitting(l, v.headers), true)])
        else if Majority(v, Prevote) then
          Does(l, m, PrevoteDelay, [TimerFor(l, PrevoteDelay)] + Considers(l, Fitting(l, v.headers)))
        else
          && l.view.Some?
          && var more := |v.headers| > |l.view.value.headers| && |Fitting(l, v.headers)| > |Fitting(l, l.view.value.headers)|;
          Does(l, m, AwaitingProposal, if more then [Consider(l.h, l.r, Fitting(l, v.headers), true)] else [])
      case AwaitingPrevotes =>
        if Majority(v, Precommit) then Does(l, m, PrecommitDelay, [TimerFor(l, PrecommitDelay), Decide(l.h, l.r, true)])
        else if SomeMajority(v, Prevote) then Does(l, m, AwaitingPrecommits, [Decide(l.h, l.r, true)])
        else if Majority(v, Prevote) then Does(l, m, PrevoteDelay, [TimerFor(l, PrevoteDelay)])
        else m == l
      case PrevoteDelay =>
        if Majority(v, Precommit) then Does(l, m, PrecommitDelay, [TimerFor(l, PrecommitDelay), Decide(l.h, l.r, true)])
        else if SomeMajority(v, Prevote) then Does(l, m, AwaitingPrecommits, [Decide(l.h, l.r, true)])
        else m == l
      case AwaitingPrecommits => if Majority(v, Precommit) then Does(l, m, PrecommitDelay, [TimerFor(l, PrecommitDelay)]) else m == l
      case PrecommitDelay => m == l
      case _ =>
        && l.view.Some?
        && var late := l.finalizeCh && KernelSpec.FindHeader(l.view.value.headers, l.view.value.summary.precommits.mostVoted).None?;
        Does(l, m, l.step, if late then Finalizes(l, v) else [])
  }

  lemma CommitWaitAsks(l: Life, v: View, resp: seq<Response>)
    requires l.view.Some?
    ensures
      var late := l.finalizeCh && KernelSpec.FindHeader(l.view.value.headers, l.view.value.summary.precommits.mostVoted).None?;
      && OnCommitWaitView(l, v, resp).Ok?
      && Does(l, OnCommitWaitView(l, v, resp).value.l, l.step, if late then Finalizes(l, v) else [])
  {
    assert l.log + [] == l.log;
  }

  lemma CommitWaitDoes(l: Life, v: View, resp: seq<Response>)
    requires l.view.Some? && Rank(l.step) >= 6 && Total(v.vals.powers) > 0
    ensures OnCommitWaitView(l, v, resp).Ok? && ViewDoes(l, v, OnCommitWaitView(l, v, resp).value.l)
  {
    CommitWaitAsks(l, v, resp);
  }

  lemma ProposalDoes(l: Life, v: View, resp: seq<Response>)
    requires Inv(l) && l.mode.Live? && l.step.AwaitingProposal? && SummaryFresh(v) && v.summary.available > 0 && !Over(l, v)
    ensures OnProposalView(l, v, resp).Ok? && ViewDoes(l, v, OnProposalView(l, v, resp).value.l)
  {
    MostVotedDecides(v, Precommit);
    MostVotedDecides(v, Prevote);
    if Decided(v) { ProposalDecided(l, v, resp); }
    else if Majority(v, Precommit) { ProposalSplit(l, v, resp); }
    else if Minority(v, Precommit) { ProposalFewPrecommits(l, v, resp); }
    else if SomeMajority(v, Prevote) { ProposalPrevoted(l, v, resp); }
    else if Majority(v, Prevote) { ProposalPrevoteSplit(l, v, resp); }
    else { ProposalWaits(l, v, resp); }
  }

  lemma PrevoteDoes(l: Life, v: View, resp: seq<Response>)
    requires Inv(l) && l.mode.Live? && (l.step.AwaitingPrevotes? || l.step.PrevoteDelay?)
    requires SummaryFresh(v) && v.summary.available > 0 && !Over(l, v)
    ensures OnPrevoteView(l, v, resp).Ok? && ViewDoes(l, v, OnPrevoteView(l, v, resp).value.l)
  {
    MostVotedDecides(v, Precommit);
    MostVotedDecides(v, Prevote);
    if Decided(v) { PrevoteDecided(l, v, resp); }
    else if Majority(v, Precommit) { PrevoteSplit(l, v, resp); }
    else if SomeMajority(v, Prevote) { PrevotesDecide(l, v, resp); }
    else { PrevotesWait(l, v, resp); }
  }

  lemma PrecommitDoes(l: Life, v: View, resp: seq<Response>)
    requires Inv(l) && l.mode.Live? && (l.step.AwaitingPrecommits? || l.step.PrecommitDelay?)
    requires SummaryFresh(v) && v.summary.available > 0 && !Over(l, v)
    ensures OnPrecommitView(l, v, resp).Ok? && ViewDoes(l, v, OnPrecommitView(l, v, resp).value.l)
  {
    MostVotedDecides(v, Precommit);
    if Decided(v) { PrecommitDecided(l, v, resp); } else { PrecommitsWait(l, v, resp); }
  }

  /** In any run, a view of the round - with its recomputed summary - either ends the round, exactly as its
    votes say, or makes the state machine do exactly what its votes ask for. */
  lemma ViewsAreAnswered(c: Config, ts: seq<Turn>, v: View, resp: seq<Response>)
    requires Starts(c) && RunOf(c, ts).Ok? && RunOf(c, ts).value.mode.Live?
    requires SummaryFresh(v) && v.summary.available > 0
    ensures
      var l := RunOf(c, ts).value;
      var o := OnView(l, v, resp);
      if Over(l, v) then o == AdvanceRound(l, resp) || o == AdvanceRound(l.(timer := None), resp)
      else o.Ok? && ViewDoes(l, v, o.value.l)
  {
    RunKeepsRound(c, ts);
    var l := RunOf(c, ts).value;
    OverIff(l, v);
    MostVotedDecides(v, Precommit);
    if Over(l, v) {
      OverLeaves(l, v, resp);
    } else {
      match l.step
      case AwaitingProposal => ProposalDoes(l, v, resp);
      case AwaitingPrevotes | PrevoteDelay => PrevoteDoes(l, v, resp);
      case AwaitingPrecommits | PrecommitDelay => PrecommitDoes(l, v, resp);
      case _ => CommitWaitDoes(l, v, resp);
    }
  }

  lemma PrevoteOverLeaves(l: Life, v: View, resp: seq<Response>)
    requires (l.step.AwaitingPrevotes? || l.step.PrevoteDelay?) && TimerOk(l) && EndsRound(l.step, v)
    ensures Leaves(OnPrevoteView(l, v, resp), l, resp)
  {
    assert l.timer.None? ==> l.(timer := None) == l;
    assert StopIf(l, PrevoteDelay) == Ok(l.(timer := None));
  }

  lemma OverLeaves(l: Life, v: View, resp: seq<Response>)
    requires Inv(l) && l.mode.Live? && SummaryFresh(v) && v.summary.available > 0 && EndsRound(l.step, v)
    ensures Leaves(OnView(l, v, resp), l, resp)
  {
    if l.step.AwaitingPrevotes? || l.step.PrevoteDelay? {
      PrevoteOverLeaves(l, v, resp);
    } else {
      MostVotedDecides(v, Precommit);
    }
  }

  // ----- Timers, data, answers -----

  /** An elapsed timer: a proposal is no longer awaited and the strategy is asked to choose among exactly the
    fitting headers, or asked for its precommit. */
  lemma TimeoutAsks(c: Config, ts: seq<Turn>, resp: seq<Response>)
    requires Starts(c) && RunOf(c, ts).Ok? && Enabled(RunOf(c, ts).value, TimerElapsed)
    requires RunOf(c, ts).value.step in {AwaitingProposal, PrevoteDelay}
    ensures
      var l := RunOf(c, ts).value;
      var o := Handle(l, TimerElapsed, resp);
      && o.Ok? && o.value.ok && l.view.Some?
      && if l.step.AwaitingProposal? then
           Does(l, o.value.l, AwaitingPrevotes, [Choose(l.h, l.r, Fitting(l, l.view.value.headers), true)])
         else Does(l, o.value.l, AwaitingPrecommits, [Decide(l.h, l.r, true)])
  {
    RunKeepsRound(c, ts);
  }

  /** Block data for the current round that was needed makes the strategy consider the fitting headers again,
    as long as it has not prevoted. */
  lemma DataAsks(c: Config, ts: seq<Turn>, ah: nat, ar: nat, someNeeded: bool, resp: seq<Response>)
    requires Starts(c) && RunOf(c, ts).Ok? && RunOf(c, ts).value.mode.Live?
    ensures
      var l := RunOf(c, ts).value;
      var o := Handle(l, DataArrived(ah, ar, someNeeded), resp);
      && o.Ok? && l.view.Some?
      && Does(l, o.value.l, l.step,
              if l.prevoteCh && ah == l.h && ar == l.r && someNeeded then Considers(l, Fitting(l, l.view.value.headers)) else [])
  {
    RunKeepsRound(c, ts);
    var l := RunOf(c, ts).value;
    assert l.log + [] == l.log;
  }

  lemma PrevoteDoneDoes(l: Life)
    requires PrevoteDone(l).Ok?
    ensures
      var m := PrevoteDone(l).value;
      Does(l, m, if l.step.AwaitingProposal? then AwaitingPrevotes else l.step, []) && !m.prevoteCh
  {
    assert l.log + [] == l.log;
    if l.step.AwaitingProposal? {
      assert PrevoteDone(l).value == l.(step := AwaitingPrevotes, timer := None, prevoteCh := false);
    }
  }

  lemma SendVoteDoes(l: Life)
    requires SendVote(l).Ok?
    ensures SendVote(l).value == l.(sent := SendVote(l).value.sent)
  {
  }

  lemma PrevoteAsksNothing(l: Life, hash: Hash, resp: seq<Response>)
    requires OnPrevote(l, Some(hash), true, resp).Ok?
    ensures
      var m := OnPrevote(l, Some(hash), true, resp).value.l;
      Does(l, m, if l.step.AwaitingProposal? then AwaitingPrevotes else l.step, []) && !m.prevoteCh
  {
    SendVoteDoes(l);
    PrevoteDoneDoes(SendVote(l).value);
  }

  lemma PrecommitAsksNothing(l: Life, hash: Hash, resp: seq<Response>)
    requires OnPrecommit(l, Some(hash), true, resp).Ok?
    ensures
      var m := OnPrecommit(l, Some(hash), true, resp).value.l;
      Does(l, m, l.step, []) && !m.precommitCh
  {
    assert l.log + [] == l.log;
    var l1 := SendVote(l).value;
    assert l1 == l || l1 == l.(sent := l.sent + 1);
  }

  /** The strategy's prevote ends the wait for a proposal, and asks for nothing; neither does its precommit. */
  lemma VotesAskNothing(c: Config, ts: seq<Turn>, hash: Hash, resp: seq<Response>)
    requires Starts(c) && RunOf(c, ts).Ok? && RunOf(c, ts).value.mode.Live?
    ensures
      var l := RunOf(c, ts).value;
      l.prevoteCh ==>
        && Handle(l, PrevoteIn(Some(hash), true), resp).Ok?
        && var m := Handle(l, PrevoteIn(Some(hash), true), resp).value.l;
        Does(l, m, if l.step.AwaitingProposal? then AwaitingPrevotes else l.step, []) && !m.prevoteCh
    ensures
      var l := RunOf(c, ts).value;
      l.precommitCh && l.asked ==>
        && Handle(l, PrecommitIn(Some(hash), true), resp).Ok?
        && var m := Handle(l, PrecommitIn(Some(hash), true), resp).value.l;
        Does(l, m, l.step, []) && !m.precommitCh
  {
    var l := RunOf(c, ts).value;
    if l.prevoteCh {
      AnswersNeverBlock(c, ts, PrevoteIn(Some(hash), true), resp);
      PrevoteAsksNothing(l, hash, resp);
    }
    if l.precommitCh && l.asked {
      AnswersNeverBlock(c, ts, PrecommitIn(Some(hash), true), resp);
      PrecommitAsksNothing(l, hash, resp);
    }
  }

  // ----- Which headers fit -----

  /** A header fits exactly when it names the application state finalized at the height before, the validators
    finalized two heights before, and as next ones those finalized at the height before. */
  lemma FitsIff(c: Config, ts: seq<Turn>, ph: ProposedHeader)
    requires Starts(c) && RunOf(c, ts).Ok?
    ensures
      var l := RunOf(c, ts).value;
      Fits(l, ph) <==>
        && ph.header.prevAppHash == (if l.h >= 1 && l.h - 1 in l.store then l.store[l.h - 1].appHash else c.appHash)
        && ph.header.vals == (if l.h >= 2 && l.h - 2 in l.store then l.store[l.h - 2].vals else c.vals)
        && ph.header.nextVals == (if l.h >= 1 && l.h - 1 in l.store then l.store[l.h - 1].vals else c.vals)
  {
    RunKeepsRound(c, ts);
    GenesisStays(c, ts);
    GenesisHashStays(c, ts);
  }

  /** A validator takes part exactly when it has a signer and the signer's key is among the validators finalized
    two heights before. */
  lemma ParticipatesIff(c: Config, ts: seq<Turn>)
    requires Starts(c) && RunOf(c, ts).Ok?
    ensures
      var l := RunOf(c, ts).value;
      Participating(l) <==>
        l.signer.Some? && l.signer.value in (if l.h >= 2 && l.h - 2 in l.store then l.store[l.h - 2].vals else c.vals).keys
  {
    RunKeepsRound(c, ts);
    GenesisStays(c, ts);
  }

  lemma GenesisHashStays(c: Config, ts: seq<Turn>)
    requires Starts(c) && RunOf(c, ts).Ok?
    ensures RunOf(c, ts).value.genesisAppHash == c.appHash
  {
    StepsOnlyAdvance(c, ts, 0);
    StartKeepsHash(c);
    assert ts[..0] == [];
  }

  lemma StartKeepsHash(c: Config)
    requires Starts(c)
    ensures Begin(c).value.l.genesisAppHash == c.appHash
  {
    var l := AtGenesis(c.signer, c.initialHeight, c.vals, c.appHash, c.blockHash);
    RoundSteps.EnterKeeps(l, c.content.(h := l.h, r := l.r, headers := Fitting(l, c.content.headers)), c.resp);
  }

  /** The fitting headers are those that fit, all of them, in their order. */
  lemma {:induction false} FittingExactly(l: Life, phs: seq<ProposedHeader>) returns (at: seq<nat>)
    ensures |at| == |Fitting(l, phs)|
    ensures forall i :: 0 <= i < |at| ==> at[i] < |phs| && Fitting(l, phs)[i] == phs[at[i]] && Fits(l, phs[at[i]])
    ensures forall i, j :: 0 <= i < j < |at| ==> at[i] < at[j]
    ensures forall k :: 0 <= k < |phs| && Fits(l, phs[k]) ==> k in at
  {
    if |phs| == 0 {
      at := [];
    } else {
      var last := |phs| - 1;
      at := FittingExactly(l, phs[..last]);
      if Fits(l, phs[last]) { at := at + [last]; }
    }
  }

  // ----- Entering a round -----

  /** What entering a round with a view does, by its votes. In a round where the power for a decision is in
    but split over targets, the first step would be a delay, for which the engine panics. */
  lemma EntryAsks(l: Life, v: View, resp: seq<Response>)
    requires SummaryFresh(v) && v.summary.available > 0 && l.timer.None? && l.prevoteCh && l.precommitCh
    ensures
      var o := BeginRoundLive(l, v, resp);
      if Decided(v) then
        if ForNil(v) then o == AdvanceRound(l, resp)
        else o.Ok? && Does(l, o.value.l, CommitWait, [TimerFor(l, CommitWait)] + Finalizes(l, v)) && (o.value.ok <==> Finalizes(l, v) != [])
      else if Majority(v, Precommit) then o.Panic?
      else if Minority(v, Precommit) || SomeMajority(v, Prevote) then
        o.Ok? && o.value.ok && Does(l, o.value.l, AwaitingPrecommits, [Decide(l.h, l.r, true)])
      else if Majority(v, Prevote) then o.Panic?
      else o.Ok? && o.value.ok && Does(l, o.value.l, AwaitingProposal, Considers(l, Fitting(l, v.headers)) + [TimerFor(l, AwaitingProposal)])
  {
    StepMeaning(v);
    MostVotedDecides(v, Precommit);
    MostVotedDecides(v, Prevote);
    match StepFromVotes(v.summary) {
      case CommitWait => if !ForNil(v) { CommitEntry(l, v, resp); }
      case AwaitingProposal => ProposalEntry(l, v, resp);
      case _ =>
    }
  }

  lemma CommitEntry(l: Life, v: View, resp: seq<Response>)
    requires v.summary.available > 0 && StepFromVotes(v.summary).CommitWait? && !ForNil(v) && l.timer.None?
    ensures
      var o := BeginRoundLive(l, v, resp);
      o.Ok? && Does(l, o.value.l, CommitWait, [TimerFor(l, CommitWait)] + Finalizes(l, v)) && (o.value.ok <==> Finalizes(l, v) != [])
  {
    CommittedDoes(l, v, resp);
    var (l1, ok) := BeginCommit(l, v);
    assert BeginRoundLive(l, v, resp) == Ok(Done(if ok then l1.(view := Some(v)) else l1, ok, resp));
  }

  lemma ProposalEntry(l: Life, v: View, resp: seq<Response>)
    requires v.summary.available > 0 && StepFromVotes(v.summary).AwaitingProposal? && l.timer.None? && l.prevoteCh
    ensures
      var o := BeginRoundLive(l, v, resp);
      && o.Ok? && o.value.ok
      && Does(l, o.value.l, AwaitingProposal, Considers(l, Fitting(l, v.headers)) + [TimerFor(l, AwaitingProposal)])
  {
    var phs := Fitting(l, v.headers);
    var l1 := AskConsider(l, phs).(step := AwaitingProposal, view := Some(v));
    assert BeginRoundLive(l, v, resp) == Ok(Done(Start(l1, AwaitingProposal), true, resp));
    assert l1.log == l.log + Considers(l, phs);
    assert l.log + Considers(l, phs) + [TimerFor(l, AwaitingProposal)] == l.log + (Considers(l, phs) + [TimerFor(l, AwaitingProposal)]);
  }

  /** The round cannot be entered exactly when the power for a decision is in, but split: a majority of
    precommits, or of prevotes with few precommits, and no target with a majority of its own. */
  lemma EntryPanicsIff(l: Life, v: View, resp: seq<Response>)
    requires SummaryFresh(v) && v.summary.available > 0 && l.timer.None? && l.prevoteCh && l.precommitCh
    requires !(Decided(v) && ForNil(v))
    ensures
      BeginRoundLive(l, v, resp).Panic? <==>
        !Decided(v) && (Majority(v, Precommit) || (!Minority(v, Precommit) && Majority(v, Prevote) && !SomeMajority(v, Prevote)))
  {
    EntryAsks(l, v, resp);
    MostVotedDecides(v, Precommit);
    MostVotedDecides(v, Prevote);
  }

  // ----- The mirror's answers, and failures -----

  /** What the mirror's answer to an entrance makes of the state machine: it is broken without one, catches up
    with a committed header, for which it asks the finalization, or begins the round with the view. */
  lemma AnswersMeaning(l: Life, resp: seq<Response>)
    requires l.mode.Live?
    ensures |resp| == 0 || resp[0].Failed? ==>
      Advance(l, resp).Ok? && Advance(l, resp).value.l == l.(mode := Broken) && !Advance(l, resp).value.ok
    ensures |resp| > 0 && resp[0].CaughtUp? ==>
      && Advance(l, resp).Ok? && Advance(l, resp).value.ok
      && var m := Advance(l, resp).value.l;
      && m == l.(mode := CatchingUp, proposalCh := false, prevoteCh := false, precommitCh := false, log := m.log)
      && m.log == l.log + [Finalize(l.h, l.r, resp[0].header)]
    ensures |resp| > 0 && resp[0].Entered? ==>
      && var v := resp[0].content.(h := l.h, r := l.r);
      Advance(l, resp) == BeginRoundLive(l.(actionsCh := Participating(l), sent := 0, lastDelivered := v.version, entered := v), v, resp[1..])
  {
  }

  /** A view of another round changes nothing. */
  lemma ForeignViewIgnored(l: Life, v: View, jump: Option<View>, resp: seq<Response>)
    requires !Matches(v, l.h, l.r)
    ensures ViewUpdate(l, Some(v), jump, resp) == Ok(Done(l, true, resp))
  {
  }

  /** An own action that could not be recorded, or an error of the strategy, ends the event loop, and nothing is
    sent. */
  lemma FailuresHalt(c: Config, ts: seq<Turn>, e: Event, resp: seq<Response>)
    requires Starts(c) && RunOf(c, ts).Ok? && Enabled(RunOf(c, ts).value, e)
    requires
      var l := RunOf(c, ts).value;
      || (e == ProposalIn(false) && l.signer.Some?)
      || e == PrevoteIn(None, true) || e == PrecommitIn(None, true) || e == PrevoteIn(None, false) || e == PrecommitIn(None, false)
      || ((e.PrevoteIn? || e.PrecommitIn?) && !e.saved && Participating(l))
    ensures Iterate(RunOf(c, ts).value, e, resp) == Ok(RunOf(c, ts).value.(mode := Halted))
  {
  }

  /** A finalization of the current round is stored, if that can be done and was not done, and begins the next
    height if that was all that was missing; one without validators, or of another round, is a panic. */
  lemma FinalizationMeaning(c: Config, ts: seq<Turn>, fin: FinResponse, saved: bool, resp: seq<Response>)
    requires Starts(c) && RunOf(c, ts).Ok? && Enabled(RunOf(c, ts).value, FinalizationIn(fin, saved))
    ensures
      var l := RunOf(c, ts).value;
      var o := Handle(l, FinalizationIn(fin, saved), resp);
      var m := l.(finVals := fin.vals, finAppHash := fin.appHash, finBlockHash := fin.blockHash, finalizeCh := false);
      if fin.vals.keys == [] || fin.h != l.h || fin.r != l.r then o.Panic?
      else if !saved || l.h in l.store then o == Ok(Done(m, false, resp))
      else
        var n := m.(store := l.store[l.h := Finalization(l.r, fin.blockHash, fin.vals, fin.appHash)]);
        if l.step.AwaitingFinalization? then o == AdvanceHeight(n, resp) else o == Ok(Done(n, true, resp))
  {
  }

  /** The first view is kept without the headers that do not fit. */
  lemma FirstViewFiltered(c: Config)
    requires Starts(c) && c.resp == [] && Begin(c).value.l.mode.Live? && !LacksHeader(Begin(c).value.l.entered)
    ensures
      var l := AtGenesis(c.signer, c.initialHeight, c.vals, c.appHash, c.blockHash);
      Begin(c).value.l.view == Some(c.content.(h := c.initialHeight, r := 0, headers := Fitting(l, c.content.headers)))
  {
    var l := AtGenesis(c.signer, c.initialHeight, c.vals, c.appHash, c.blockHash);
    var v := c.content.(h := l.h, r := l.r, headers := Fitting(l, c.content.headers));
    var l1 := l.(actionsCh := Participating(l), sent := 0, lastDelivered := v.version, entered := v);
    assert Begin(c) == BeginRoundLive(l1, v, []);
    EntersOrPasses(l1, v, []);
  }
}
