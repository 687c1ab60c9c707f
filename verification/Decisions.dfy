/** When the strategy is asked for its precommit, and when it never is. */
module Decisions {
  import opened Options
  import opened Quorum
  import opened Votes
  import opened Views
  import opened RoundSpec
  import opened RoundInv
  import opened RoundSteps
  import opened RoundRuns
  import opened Entrances

  /** Precommits are awaited though the strategy was not asked for its own. */
  predicate Unasked(l: Life) {
    l.mode.Live? && l.step.AwaitingPrecommits? && !l.asked
  }

  /** One target has a majority of the prevotes, and hardly anybody precommitted. */
  predicate PrevotesSettled(v: View) {
    var vs := v.summary;
    && vs.available > 0 && vs.precommits.total < ByzantineMinority(vs.available)
    && vs.prevotes.total >= ByzantineMajority(vs.available)
    && PowerFor(vs.prevotes, vs.prevotes.mostVoted) >= ByzantineMajority(vs.available)
  }

  // ----- Where it comes from -----

  /** Awaiting precommits unasked is as it was before. */
  predicate NoneUnasked(l: Life, m: Life) {
    m.step.AwaitingPrecommits? && !m.asked ==> l.step.AwaitingPrecommits? && !l.asked
  }

  lemma SettledUnasked(l: Life, v: View, resp: seq<Response>)
    requires l.step.AwaitingProposal? && !l.asked && OnProposalView(l, v, resp).Ok? && PrevotesSettled(v)
    ensures
      var d := OnProposalView(l, v, resp).value;
      d.l.step.AwaitingPrecommits? && !d.l.asked && d.l.mode == l.mode && d.l.view == l.view && d.rest == resp
  {
  }

  lemma CommittedSteps(l: Life, v: View, resp: seq<Response>)
    requires Committed(l, v, resp).Ok? && v.summary.precommits.mostVoted != NIL_HASH
    ensures Committed(l, v, resp).value.l.step.CommitWait?
  {
  }

  /** Another view, while a proposal is awaited: the round is left, or the strategy is asked if precommits
    are awaited. */
  lemma ManyPrecommitsAsk(l: Life, v: View, resp: seq<Response>)
    requires OnProposalView(l, v, resp).Ok? && v.summary.precommits.total >= ByzantineMinority(v.summary.available)
    requires !NilMajority(v)
    ensures var m := OnProposalView(l, v, resp).value.l; m.step.AwaitingPrecommits? ==> m.asked
  {
    var vs := v.summary;
    if vs.precommits.total >= ByzantineMajority(vs.available) && PowerFor(vs.precommits, vs.precommits.mostVoted) >= ByzantineMajority(vs.available) {
      CommittedSteps(Stop(l).value, v, resp);
    }
  }

  lemma OtherPrevotesWait(l: Life, v: View, resp: seq<Response>)
    requires l.step.AwaitingProposal? && OnProposalView(l, v, resp).Ok?
    requires v.summary.precommits.total < ByzantineMinority(v.summary.available) && !PrevotesSettled(v)
    ensures !OnProposalView(l, v, resp).value.l.step.AwaitingPrecommits?
  {
    var vs := v.summary;
    if vs.prevotes.total >= ByzantineMajority(vs.available) {
      var l1 := Stop(l).value;
      assert OnProposalView(l, v, resp).value.l == AskConsider(StartDelay(l1, PrevoteDelay), Fitting(l1, v.headers));
    }
  }

  lemma ProposalViewUnasked(l: Life, v: View, resp: seq<Response>)
    requires l.step.AwaitingProposal? && !l.asked && OnProposalView(l, v, resp).Ok? && !NilMajority(v)
    ensures var m := OnProposalView(l, v, resp).value.l; m.step.AwaitingPrecommits? && !m.asked <==> PrevotesSettled(v)
  {
    if PrevotesSettled(v) {
      SettledUnasked(l, v, resp);
    } else if v.summary.precommits.total >= ByzantineMinority(v.summary.available) {
      ManyPrecommitsAsk(l, v, resp);
    } else {
      OtherPrevotesWait(l, v, resp);
    }
  }

  lemma PrevoteViewAsks(l: Life, v: View, resp: seq<Response>)
    requires (l.step.AwaitingPrevotes? || l.step.PrevoteDelay?) && OnPrevoteView(l, v, resp).Ok? && !NilMajority(v)
    ensures var m := OnPrevoteView(l, v, resp).value.l; m.step.AwaitingPrecommits? ==> m.asked
  {
    var vs := v.summary;
    var maj := ByzantineMajority(vs.available);
    if vs.precommits.total >= maj && PowerFor(vs.precommits, vs.precommits.mostVoted) >= maj {
      CommittedSteps(StopIf(l, PrevoteDelay).value, v, resp);
    } else if vs.precommits.total < maj && vs.prevotes.total >= maj && PowerFor(vs.prevotes, vs.prevotes.mostVoted) >= maj {
      assert OnPrevoteView(l, v, resp).value.l == AskDecide(StopIf(l, PrevoteDelay).value.(step := AwaitingPrecommits));
    }
  }

  lemma PrecommitViewSame(l: Life, v: View, resp: seq<Response>)
    requires (l.step.AwaitingPrecommits? || l.step.PrecommitDelay?) && OnPrecommitView(l, v, resp).Ok? && !EndsRound(l.step, v)
    ensures var m := OnPrecommitView(l, v, resp).value.l; NoneUnasked(l, m) && m.asked == l.asked
  {
    var vs := v.summary;
    var maj := ByzantineMajority(vs.available);
    if vs.precommits.total >= maj && PowerFor(vs.precommits, vs.precommits.mostVoted) >= maj {
      var l1 := StopIf(l, PrecommitDelay).value;
      CommittedSteps(l1, v, resp);
      CommittedSame(l1, v, resp);
    }
  }

  lemma CommittedSame(l: Life, v: View, resp: seq<Response>)
    requires Committed(l, v, resp).Ok? && v.summary.precommits.mostVoted != NIL_HASH
    ensures Committed(l, v, resp).value.l.asked == l.asked
  {
  }

  lemma CommitWaitViewSame(l: Life, v: View, resp: seq<Response>)
    requires OnCommitWaitView(l, v, resp).Ok?
    ensures var m := OnCommitWaitView(l, v, resp).value.l; m.step == l.step && m.asked == l.asked
  {
  }

  /** A handled view that leaves the state machine in its round. */
  lemma ViewUnasked(l: Life, v: View, resp: seq<Response>)
    requires l.step.AwaitingProposal? ==> !l.asked
    requires OnView(l, v, resp).Ok? && !EndsRound(l.step, v) && !(l.step.AwaitingPrecommits? && !l.asked)
    ensures
      var m := OnView(l, v, resp).value.l;
      m.step.AwaitingPrecommits? && !m.asked <==> l.step.AwaitingProposal? && PrevotesSettled(v)
  {
    match l.step {
      case AwaitingProposal => ProposalViewUnasked(l, v, resp);
      case AwaitingPrevotes | PrevoteDelay => PrevoteViewAsks(l, v, resp);
      case AwaitingPrecommits | PrecommitDelay => PrecommitViewSame(l, v, resp);
      case _ => CommitWaitViewSame(l, v, resp);
    }
  }

  /** The view, and no jump, that makes the state machine await precommits without asking. */
  predicate Unasking(l: Life, e: Event) {
    && e.ViewIn? && e.vrv.Some? && e.jump.None? && l.step.AwaitingProposal? && l.view.Some?
    && Matches(e.vrv.value, l.h, l.r) && e.vrv.value.version > l.view.value.version && PrevotesSettled(e.vrv.value)
  }

  lemma NewViewUnasked(l: Life, v: View, jump: Option<View>, resp: seq<Response>)
    requires l.mode.Live? && (l.step.AwaitingProposal? ==> !l.asked) && !Unasked(l) && NewView(l, v, jump, resp).Ok?
    ensures Unasked(NewView(l, v, jump, resp).value.l) <==> l.step.AwaitingProposal? && PrevotesSettled(v) && jump.None?
  {
    var l0 := l.(lastDelivered := v.version);
    var d := OnView(l0, v, resp).value;
    LeavesOrStays(l0, v, resp);
    if d.l.mode.Live? {
      KeepViewStays(d.l, v);
      if jump.Some? {
        JumpSettles(KeepView(d.l, v), jump.value, d.rest);
      } else if EndsRound(l0.step, v) {
        LeavesArrives(OnView(l0, v, resp), l0, resp);
      } else {
        ViewUnasked(l0, v, resp);
      }
    }
    if !EndsRound(l0.step, v) {
      ViewUnasked(l0, v, resp);
    }
  }

  // ----- Other events -----

  /** Neither the step's asking nor the question itself is taken back within the round. */
  predicate SameAsking(l: Life, m: Life) {
    NoneUnasked(l, m) && (Rank(l.step) >= 4 ==> m.asked == l.asked)
  }

  lemma TimerAsks(l: Life, resp: seq<Response>)
    requires (l.step.AwaitingProposal? || l.step.PrevoteDelay?) && OnTimer(l, resp).Ok?
    ensures NoneUnasked(l, OnTimer(l, resp).value.l)
  {
  }

  lemma CommitOverSame(l: Life, resp: seq<Response>)
    requires l.step.CommitWait? && CommitWaitOver(l, resp).Ok? && l.finVals.keys == []
    ensures SameAsking(l, CommitWaitOver(l, resp).value.l)
  {
  }

  lemma ProposalSame(l: Life, saved: bool, resp: seq<Response>)
    requires OnProposal(l, saved, resp).Ok?
    ensures SameAsking(l, OnProposal(l, saved, resp).value.l)
  {
  }

  lemma SendVoteSame(l: Life)
    requires SendVote(l).Ok?
    ensures SendVote(l).value.step == l.step && SendVote(l).value.asked == l.asked
  {
  }

  lemma PrevoteDoneSame(l: Life)
    requires PrevoteDone(l).Ok?
    ensures SameAsking(l, PrevoteDone(l).value)
  {
    if l.step.AwaitingProposal? {
      assert PrevoteDone(l).value == l.(step := AwaitingPrevotes, timer := None, prevoteCh := false);
    }
  }

  lemma PrevoteSame(l: Life, hash: Option<Hash>, saved: bool, resp: seq<Response>)
    requires OnPrevote(l, hash, saved, resp).Ok?
    ensures SameAsking(l, OnPrevote(l, hash, saved, resp).value.l)
  {
    if hash.Some? && !(Participating(l) && !saved) {
      SendVoteSame(l);
      PrevoteDoneSame(SendVote(l).value);
    }
  }

  lemma PrecommitSame(l: Life, hash: Option<Hash>, saved: bool, resp: seq<Response>)
    requires OnPrecommit(l, hash, saved, resp).Ok?
    ensures SameAsking(l, OnPrecommit(l, hash, saved, resp).value.l)
  {
    if hash.Some? && !(Participating(l) && !saved) {
      SendVoteSame(l);
    }
  }

  lemma DataSame(l: Life, ah: nat, ar: nat, someNeeded: bool, resp: seq<Response>)
    requires OnDataArrived(l, ah, ar, someNeeded, resp).Ok?
    ensures SameAsking(l, OnDataArrived(l, ah, ar, someNeeded, resp).value.l)
  {
  }

  lemma FinalizationSame(l: Life, fin: FinResponse, saved: bool, resp: seq<Response>)
    requires OnFinalization(l, fin, saved, resp).Ok? && !(l.step.AwaitingFinalization? && saved && l.h !in l.store)
    ensures SameAsking(l, OnFinalization(l, fin, saved, resp).value.l)
  {
  }

  lemma HeightCommittedSame(l: Life, resp: seq<Response>)
    requires OnHeightCommitted(l, resp).Ok? && !(l.step.CommitWait? && l.finVals.keys != [])
    ensures SameAsking(l, OnHeightCommitted(l, resp).value.l)
  {
  }

  /** The event makes the state machine enter a round. */
  predicate Enters(l: Life, e: Event) {
    match e
    case FinalizationIn(_, saved) => l.step.AwaitingFinalization? && saved && l.h !in l.store
    case TimerElapsed => l.step.PrecommitDelay? || (l.step.CommitWait? && l.finVals.keys != [])
    case HeightCommitted => l.step.CommitWait? && l.finVals.keys != []
    case _ => false
  }

  lemma FinalizationEnters(l: Life, fin: FinResponse, saved: bool, resp: seq<Response>)
    requires l.mode.Live? && OnFinalization(l, fin, saved, resp).Ok? && Enters(l, FinalizationIn(fin, saved))
    ensures var m := OnFinalization(l, fin, saved, resp).value.l; NoneUnasked(l, m) || !m.mode.Live?
    ensures OnFinalization(l, fin, saved, resp).value.l.h == l.h + 1
  {
    var l1 := l.(finVals := fin.vals, finAppHash := fin.appHash, finBlockHash := fin.blockHash, finalizeCh := false,
                 store := l.store[l.h := Finalization(l.r, fin.blockHash, fin.vals, fin.appHash)]);
    HeightSettles(l, l1, resp);
  }

  lemma DelayEnters(l: Life, resp: seq<Response>)
    requires l.mode.Live? && l.step.PrecommitDelay? && OnTimer(l, resp).Ok?
    ensures var m := OnTimer(l, resp).value.l; (NoneUnasked(l, m) || !m.mode.Live?) && m.r > l.r
  {
    LeavesArrives(OnTimer(l, resp), l, resp);
    LeavesForward(OnTimer(l, resp), l, resp);
  }

  lemma CommitOverEnters(l: Life, m: Life, resp: seq<Response>)
    requires l.mode.Live? && m == l.(timer := None, heightCommittedCh := m.heightCommittedCh)
    requires m.finVals.keys != [] && CommitWaitOver(m, resp).Ok?
    ensures var n := CommitWaitOver(m, resp).value.l; (NoneUnasked(l, n) || !n.mode.Live?) && n.h == l.h + 1
  {
    HeightSettles(l, m, resp);
  }

  lemma EventEnters(l: Life, e: Event, resp: seq<Response>)
    requires l.mode.Live? && Handle(l, e, resp).Ok? && Enters(l, e)
    ensures
      var m := Handle(l, e, resp).value.l;
      (NoneUnasked(l, m) || !m.mode.Live?) && (m.h != l.h || m.r != l.r)
  {
    match e {
      case FinalizationIn(fin, saved) => FinalizationEnters(l, fin, saved, resp);
      case TimerElapsed =>
        if l.step.PrecommitDelay? { DelayEnters(l, resp); } else { CommitOverEnters(l, l.(timer := None), resp); }
      case HeightCommitted => CommitOverEnters(l, l.(heightCommittedCh := false, timer := None), resp);
      case _ =>
    }
  }

  lemma EventSame(l: Life, e: Event, resp: seq<Response>)
    requires l.mode.Live? && Handle(l, e, resp).Ok? && !e.ViewIn? && !Enters(l, e)
    ensures SameAsking(l, Handle(l, e, resp).value.l)
  {
    match e {
      case ProposalIn(saved) => ProposalSame(l, saved, resp);
      case PrevoteIn(hash, saved) => PrevoteSame(l, hash, saved, resp);
      case PrecommitIn(hash, saved) => PrecommitSame(l, hash, saved, resp);
      case DataArrived(ah, ar, someNeeded) => DataSame(l, ah, ar, someNeeded, resp);
      case FinalizationIn(fin, saved) => FinalizationSame(l, fin, saved, resp);
      case HeightCommitted => HeightCommittedSame(l, resp);
      case TimerElapsed =>
        if l.step.CommitWait? { CommitOverSame(l.(timer := None), resp); } else { TimerAsks(l, resp); }
    }
  }

  lemma ViewEventUnasked(l: Life, vrv: Option<View>, jump: Option<View>, resp: seq<Response>)
    requires l.mode.Live? && (l.step.AwaitingProposal? ==> !l.asked) && !Unasked(l) && ViewUpdate(l, vrv, jump, resp).Ok?
    ensures Unasked(ViewUpdate(l, vrv, jump, resp).value.l) <==> Unasking(l, ViewIn(vrv, jump))
  {
    match vrv {
      case None => JumpSettles(l, jump.value, resp);
      case Some(v) =>
        if Matches(v, l.h, l.r) && l.view.Some? && v.version > l.view.value.version {
          NewViewUnasked(l, v, jump, resp);
        }
    }
  }

  /** Exactly one kind of event leads to awaiting precommits without asking the strategy: while a proposal is
    awaited, a new view in which one target has a majority of the prevotes while less than a minority
    precommitted. */
  lemma UnaskedIff(c: Config, ts: seq<Turn>, e: Event, resp: seq<Response>)
    requires Starts(c) && RunOf(c, ts).Ok? && Enabled(RunOf(c, ts).value, e) && !Unasked(RunOf(c, ts).value)
    requires Iterate(RunOf(c, ts).value, e, resp).Ok?
    ensures Unasked(Iterate(RunOf(c, ts).value, e, resp).value) <==> Unasking(RunOf(c, ts).value, e)
  {
    RunKeepsRound(c, ts);
    var l := RunOf(c, ts).value;
    if e.ViewIn? {
      ViewEventUnasked(l, e.vrv, e.jump, resp);
    } else if Enters(l, e) {
      EventEnters(l, e, resp);
    } else {
      EventSame(l, e, resp);
    }
  }

  // ----- Where it leads -----

  lemma LateViewSame(l: Life, v: View, resp: seq<Response>)
    requires Rank(l.step) >= 4 && OnView(l, v, resp).Ok? && !EndsRound(l.step, v)
    ensures OnView(l, v, resp).value.l.asked == l.asked
  {
    if l.step.AwaitingPrecommits? || l.step.PrecommitDelay? {
      PrecommitViewSame(l, v, resp);
    } else {
      CommitWaitViewSame(l, v, resp);
    }
  }

  lemma LateNewView(l: Life, v: View, jump: Option<View>, resp: seq<Response>)
    requires l.mode.Live? && Rank(l.step) >= 4 && NewView(l, v, jump, resp).Ok?
    ensures var m := NewView(l, v, jump, resp).value.l; m.h == l.h && m.r == l.r ==> m.asked == l.asked
  {
    var l0 := l.(lastDelivered := v.version);
    var d := OnView(l0, v, resp).value;
    LeavesOrStays(l0, v, resp);
    if EndsRound(l0.step, v) {
      LeavesForward(OnView(l0, v, resp), l0, resp);
    } else {
      LateViewSame(l0, v, resp);
    }
    if d.l.mode.Live? {
      KeepViewStays(d.l, v);
      if jump.Some? {
        LeavesForward(JumpAhead(KeepView(d.l, v), jump.value, d.rest), KeepView(d.l, v), d.rest);
      }
    }
  }

  lemma LateViewUpdate(l: Life, vrv: Option<View>, jump: Option<View>, resp: seq<Response>)
    requires l.mode.Live? && Rank(l.step) >= 4 && ViewUpdate(l, vrv, jump, resp).Ok?
    ensures var m := ViewUpdate(l, vrv, jump, resp).value.l; m.h == l.h && m.r == l.r ==> m.asked == l.asked
  {
    match vrv {
      case None => LeavesForward(JumpAhead(l, jump.value, resp), l, resp);
      case Some(v) =>
        if Matches(v, l.h, l.r) && l.view.Some? && v.version > l.view.value.version {
          LateNewView(l, v, jump, resp);
        }
    }
  }

  /** From the precommit steps on nothing asks the strategy for its precommit within the round. */
  lemma NobodyAsksLate(l: Life, e: Event, resp: seq<Response>)
    requires l.mode.Live? && Rank(l.step) >= 4 && Handle(l, e, resp).Ok?
    ensures var m := Handle(l, e, resp).value.l; m.h == l.h && m.r == l.r ==> m.asked == l.asked
  {
    if e.ViewIn? {
      LateViewUpdate(l, e.vrv, e.jump, resp);
    } else if Enters(l, e) {
      EventEnters(l, e, resp);
    } else {
      EventSame(l, e, resp);
    }
  }

  lemma {:induction false} StaysUnasked(c: Config, ts: seq<Turn>, i: nat)
    requires Starts(c) && i <= |ts| && RunOf(c, ts).Ok? && RunOf(c, ts[..i]).Ok? && Unasked(RunOf(c, ts[..i]).value)
    ensures
      var l, m := RunOf(c, ts[..i]).value, RunOf(c, ts).value;
      m.h == l.h && m.r == l.r ==> !m.asked && Rank(m.step) >= 4
    decreases |ts|
  {
    if i == |ts| {
      assert ts[..i] == ts;
    } else {
      var front, t := ts[..|ts| - 1], ts[|ts| - 1];
      assert front[..i] == ts[..i];
      StaysUnasked(c, front, i);
      RunKeepsRound(c, front);
      StepsOnlyAdvance(c, front, i);
      var m := RunOf(c, front).value;
      if Enabled(m, t.event) {
        StepKeeps(m, t.event, t.resp);
        if Rank(m.step) >= 4 { NobodyAsksLate(m, t.event, t.resp); }
      }
    }
  }

  /** Once precommits are awaited unasked, this validator never precommits in the round: at no later point of
    the run in that round has the strategy been asked, so no answer can come. */
  lemma NeverAsked(c: Config, ts: seq<Turn>, i: nat, hash: Option<Hash>, saved: bool)
    requires Starts(c) && i <= |ts| && RunOf(c, ts).Ok?
    requires RunOf(c, ts[..i]).Ok? && Unasked(RunOf(c, ts[..i]).value)
    requires RunOf(c, ts).value.h == RunOf(c, ts[..i]).value.h && RunOf(c, ts).value.r == RunOf(c, ts[..i]).value.r
    ensures
      var l := RunOf(c, ts).value;
      && (forall q :: q in l.log && q.Decide? ==> RoundOf(q) != (l.h, l.r))
      && !Enabled(l, PrecommitIn(hash, saved))
  {
    StaysUnasked(c, ts, i);
    RunKeepsRound(c, ts);
    var l := RunOf(c, ts).value;
    forall q | q in l.log && q.Decide? ensures RoundOf(q) != (l.h, l.r) {
      var j :| 0 <= j < |l.log| && l.log[j] == q;
      assert LogAt(l, j);
    }
  }
}
