/** Every handler of the state machine keeps the invariants and moves forward. */
module RoundSteps {
  import opened Options
  import opened Quorum
  import opened Votes
  import opened Views
  import KernelSpec
  import opened RoundSpec
  import opened RoundInv

  // ----- Entering a round -----

  /** The state in which the entered view is evaluated; its step is still that of the last round. */
  function Entering(l: Life, v: View): Life {
    l.(actionsCh := Participating(l), sent := 0, lastDelivered := v.version, entered := v)
  }

  lemma EnterProposalLog(l: Life, v: View, resp: seq<Response>)
    requires Blank(l) && v.summary.available > 0 && StepFromVotes(v.summary).AwaitingProposal?
    ensures BeginRoundLive(Entering(l, v), v, resp).Ok?
    ensures var m := BeginRoundLive(Entering(l, v), v, resp).value.l; LogOk(m) && l.log <= m.log
  {
    var m := BeginRoundLive(Entering(l, v), v, resp).value.l;
    var phs := Fitting(Entering(l, v), v.headers);
    var timer := StartTimer(Timer(AwaitingProposal, l.h, l.r), true);
    LogEntered(l, m, if |phs| > 0 then [Consider(l.h, l.r, phs, true), timer] else [timer]);
  }

  lemma EnterProposalShape(l: Life, v: View, resp: seq<Response>)
    requires Blank(l) && v.summary.available > 0 && StepFromVotes(v.summary).AwaitingProposal?
    ensures BeginRoundLive(Entering(l, v), v, resp).Ok?
    ensures
      var d := BeginRoundLive(Entering(l, v), v, resp).value;
      d.ok && d.l == Entering(l, v).(step := AwaitingProposal, view := Some(v), timer := Some(Timer(AwaitingProposal, l.h, l.r)), log := d.l.log)
  {
    var l1 := AskConsider(Entering(l, v), Fitting(Entering(l, v), v.headers));
    assert l1 == Entering(l, v).(log := l1.log);
    var l2 := l1.(step := AwaitingProposal, view := Some(v));
    assert BeginRoundLive(Entering(l, v), v, resp) == Ok(Done(Start(l2, AwaitingProposal), true, resp));
  }

  lemma EnterProposal(l: Life, v: View, resp: seq<Response>)
    requires Blank(l) && Matches(v, l.h, l.r) && v.summary.available > 0 && StepFromVotes(v.summary).AwaitingProposal?
    ensures BeginRoundLive(Entering(l, v), v, resp).Ok? && EntryOk(l, BeginRoundLive(Entering(l, v), v, resp).value)
  {
    EnterProposalLog(l, v, resp);
    EnterProposalShape(l, v, resp);
    PipelineKept(l, BeginRoundLive(Entering(l, v), v, resp).value.l);
  }

  lemma EnterPrecommits(l: Life, v: View, resp: seq<Response>)
    requires Blank(l) && Matches(v, l.h, l.r) && v.summary.available > 0 && StepFromVotes(v.summary).AwaitingPrecommits?
    ensures BeginRoundLive(Entering(l, v), v, resp).Ok? && EntryOk(l, BeginRoundLive(Entering(l, v), v, resp).value)
  {
    LogEntered(l, BeginRoundLive(Entering(l, v), v, resp).value.l, [Decide(l.h, l.r, true)]);
    PipelineKept(l, BeginRoundLive(Entering(l, v), v, resp).value.l);
  }

  lemma EnterCommitLog(l: Life, v: View, resp: seq<Response>)
    requires Blank(l) && v.summary.available > 0 && StepFromVotes(v.summary).CommitWait?
    requires v.summary.precommits.mostVoted != NIL_HASH
    ensures BeginRoundLive(Entering(l, v), v, resp).Ok?
    ensures var m := BeginRoundLive(Entering(l, v), v, resp).value.l; LogOk(m) && l.log <= m.log
  {
    var m := BeginRoundLive(Entering(l, v), v, resp).value.l;
    var timer := StartTimer(Timer(CommitWait, l.h, l.r), true);
    match KernelSpec.FindHeader(v.headers, v.summary.precommits.mostVoted) {
      case None => LogEntered(l, m, [timer]);
      case Some(header) => LogEntered(l, m, [timer, Finalize(l.h, l.r, header)]);
    }
  }

  lemma EnterCommit(l: Life, v: View, resp: seq<Response>)
    requires Blank(l) && Matches(v, l.h, l.r) && v.summary.available > 0 && StepFromVotes(v.summary).CommitWait?
    requires v.summary.precommits.mostVoted != NIL_HASH
    ensures BeginRoundLive(Entering(l, v), v, resp).Ok? && EntryOk(l, BeginRoundLive(Entering(l, v), v, resp).value)
  {
    EnterCommitLog(l, v, resp);
    PipelineKept(l, BeginRoundLive(Entering(l, v), v, resp).value.l);
  }

  lemma {:induction false} EnterKeeps(l: Life, v: View, resp: seq<Response>)
    requires Blank(l) && Matches(v, l.h, l.r) && EnterWith(l, v, resp).Ok?
    ensures EntryOk(l, EnterWith(l, v, resp).value)
    decreases |resp|, 4
  {
    assert EnterWith(l, v, resp) == BeginRoundLive(Entering(l, v), v, resp);
    match StepFromVotes(v.summary) {
      case AwaitingProposal => EnterProposal(l, v, resp);
      case AwaitingPrecommits => EnterPrecommits(l, v, resp);
      case CommitWait =>
        if v.summary.precommits.mostVoted == NIL_HASH {
          LogEntered(l, Entering(l, v), []);
          AdvanceRoundKeeps(Entering(l, v), resp);
        } else {
          EnterCommit(l, v, resp);
        }
      case _ =>
    }
  }

  lemma {:induction false} AdvanceKeeps(l: Life, resp: seq<Response>)
    requires Blank(l) && Advance(l, resp).Ok?
    ensures EntryOk(l, Advance(l, resp).value)
    decreases |resp|, 1
  {
    var d := Advance(l, resp).value;
    if |resp| == 0 || resp[0].Failed? {
      BrokenOk(l);
    } else if resp[0].CaughtUp? {
      CatchUpOk(l, resp[0].header);
    } else {
      EnterKeeps(l, resp[0].content.(h := l.h, r := l.r), resp[1..]);
    }
  }

  lemma BrokenOk(l: Life)
    requires Blank(l)
    ensures Inv(l.(mode := Broken))
  {
    LogEntered(l, l.(mode := Broken), []);
  }

  lemma CatchUpOk(l: Life, header: Header)
    requires Blank(l)
    ensures
      var l1 := l.(proposalCh := false, prevoteCh := false, precommitCh := false);
      Inv(Emit(l1, Finalize(l.h, l.r, header)).(mode := CatchingUp))
  {
    var m := l.(proposalCh := false, prevoteCh := false, precommitCh := false,
                log := l.log + [Finalize(l.h, l.r, header)], mode := CatchingUp);
    LogEntered(l, m, [Finalize(l.h, l.r, header)]);
    PipelineKept(l, m);
  }

  /** A state from which the round can be left. */
  ghost predicate Leaving(l: Life) {
    && l.mode.Live? && LogOk(l) && PipelineOk(l)
    && (l.view.Some? ==> HRLeq(l.view.value.h, l.view.value.r, l.h, l.r))
  }

  lemma ResetBlank(l: Life, h: nat, r: nat)
    requires l.mode.Live? && LogOk(l) && PipelineOk(ResetRound(l, h, r)) && HRLess(l.h, l.r, h, r)
    requires l.view.Some? ==> HRLeq(l.view.value.h, l.view.value.r, l.h, l.r)
    ensures Blank(ResetRound(l, h, r))
  {
    forall i | 0 <= i < |l.log| ensures RequestOk(l.log[i]) && HRLess(RoundOf(l.log[i]).0, RoundOf(l.log[i]).1, h, r) {
      assert LogAt(l, i);
    }
  }

  /** The next round was entered, or could not be. */
  ghost predicate Left(l: Life, d: Done) {
    && HRLess(l.h, l.r, d.l.h, d.l.r) && Extends(l, d.l)
    && (d.ok || l.view.Some? ==> Inv(d.l))
  }

  lemma {:induction false} AdvanceRoundKeeps(l: Life, resp: seq<Response>)
    requires Leaving(l) && AdvanceRound(l, resp).Ok?
    ensures Left(l, AdvanceRound(l, resp).value)
    decreases |resp|, 2
  {
    ResetBlank(l, l.h, l.r + 1);
    AdvanceKeeps(ResetRound(l, l.h, l.r + 1), resp);
  }

  lemma AdvanceHeightKeeps(l: Life, resp: seq<Response>)
    requires Leaving(l) && l.h in l.store && AdvanceHeight(l, resp).Ok?
    ensures Left(l, AdvanceHeight(l, resp).value)
  {
    var l1 := CycleFinalization(l);
    LogSame(l, l1);
    PipelineMoves(l);
    ResetBlank(l1, l.h + 1, 0);
    AdvanceKeeps(ResetRound(l1, l.h + 1, 0), resp);
  }

  /** Cycling the finalization moves the pipeline one height on. */
  lemma PipelineMoves(l: Life)
    requires PipelineOk(l) && l.mode.Live? && l.h in l.store
    ensures PipelineOk(ResetRound(CycleFinalization(l), l.h + 1, 0))
  {
  }

  // ----- Handlers -----

  /** What a handler leaves: the state machine is in the same round with the same view, or it entered a
    later one. */
  ghost predicate HandlerOk(l: Life, d: Done) {
    && Sound(d.l) && Progress(l, d.l)
    && (if d.l.h == l.h && d.l.r == l.r then
          d.l.view == l.view && d.l.entered == l.entered && d.l.lastDelivered == l.lastDelivered && d.l.mode.Live?
        else Inv(d.l))
  }

  lemma LeavesRound(l: Life, m: Life, resp: seq<Response>)
    requires Sound(l) && l.mode.Live? && m == l.(timer := m.timer) && AdvanceRound(m, resp).Ok?
    ensures HandlerOk(l, AdvanceRound(m, resp).value)
    ensures Inv(AdvanceRound(m, resp).value.l)
  {
    LogSame(l, m);
    PipelineKept(l, m);
    AdvanceRoundKeeps(m, resp);
  }

  lemma StaysOk(l: Life, d: Done, extra: seq<Request>)
    requires Sound(l) && l.mode.Live? && SameRound(l, d.l) && Rank(l.step) <= Rank(d.l.step)
    requires MoreRequests(l, d.l, extra) && TimerOk(d.l) && ChannelsOk(d.l)
    ensures HandlerOk(l, d)
  {
    Stays(l, d.l, extra);
  }

  function CommitRequests(l: Life, v: View): seq<Request> {
    [StartTimer(Timer(CommitWait, l.h, l.r), true)]
    + match KernelSpec.FindHeader(v.headers, v.summary.precommits.mostVoted)
      case None => []
      case Some(header) => [Finalize(l.h, l.r, header)]
  }

  lemma CommittedShape(m: Life, v: View, resp: seq<Response>)
    requires m.timer.None? && v.summary.precommits.mostVoted != NIL_HASH
    ensures Committed(m, v, resp).Ok?
    ensures Committed(m, v, resp).value.l
         == m.(step := CommitWait, timer := Some(Timer(CommitWait, m.h, m.r)), log := m.log + CommitRequests(m, v))
  {
    var log := m.log + [StartTimer(Timer(CommitWait, m.h, m.r), true)];
    match KernelSpec.FindHeader(v.headers, v.summary.precommits.mostVoted) {
      case None => assert log == m.log + CommitRequests(m, v);
      case Some(header) => assert log + [Finalize(m.h, m.r, header)] == m.log + CommitRequests(m, v);
    }
  }

  lemma CommittedBlock(l: Life, m: Life, v: View, resp: seq<Response>)
    requires Sound(l) && l.mode.Live? && Rank(l.step) < 6 && m == l.(timer := None)
    requires v.summary.precommits.mostVoted != NIL_HASH
    ensures Committed(m, v, resp).Ok?
    ensures HandlerOk(l, Committed(m, v, resp).value)
  {
    CommittedShape(m, v, resp);
    StaysOk(l, Committed(m, v, resp).value, CommitRequests(m, v));
  }

  lemma CommittedKeeps(l: Life, m: Life, v: View, resp: seq<Response>)
    requires Sound(l) && l.mode.Live? && Rank(l.step) < 6 && m == l.(timer := None)
    requires Committed(m, v, resp).Ok?
    ensures HandlerOk(l, Committed(m, v, resp).value)
  {
    if v.summary.precommits.mostVoted == NIL_HASH {
      LeavesRound(l, m, resp);
    } else {
      CommittedBlock(l, m, v, resp);
    }
  }

  lemma DelayKeeps(l: Life, m: Life, s: Step)
    requires Sound(l) && l.mode.Live? && Rank(l.step) <= 3 && m == l.(timer := None) && s == PrecommitDelay
    ensures HandlerOk(l, Done(AskDecide(StartDelay(m, s)), true, []))
  {
    var n := AskDecide(StartDelay(m, s));
    Stays(l, n, [StartTimer(Timer(s, l.h, l.r), true), Decide(l.h, l.r, true)]);
  }

  /** A majority of prevotes while a proposal was awaited. */
  lemma ProposalPrevotesKeep(l: Life, v: View, resp: seq<Response>)
    requires Sound(l) && l.mode.Live? && l.step.AwaitingProposal? && OnProposalView(l, v, resp).Ok?
    requires v.summary.precommits.total < ByzantineMinority(v.summary.available)
    requires v.summary.prevotes.total >= ByzantineMajority(v.summary.available)
    ensures HandlerOk(l, OnProposalView(l, v, resp).value)
  {
    var vs := v.summary;
    var n := OnProposalView(l, v, resp).value.l;
    var phs := Fitting(l.(timer := None), v.headers);
    if PowerFor(vs.prevotes, vs.prevotes.mostVoted) >= ByzantineMajority(vs.available) {
      Stays(l, n, [Choose(l.h, l.r, phs, true)]);
    } else {
      var timer := StartTimer(Timer(PrevoteDelay, l.h, l.r), true);
      Stays(l, n, if |phs| > 0 then [timer, Consider(l.h, l.r, phs, true)] else [timer]);
    }
  }

  lemma NewHeadersKeep(l: Life, v: View, resp: seq<Response>)
    requires Sound(l) && l.mode.Live? && l.step.AwaitingProposal? && OnProposalView(l, v, resp).Ok?
    requires v.summary.precommits.total < ByzantineMinority(v.summary.available)
    requires v.summary.prevotes.total < ByzantineMajority(v.summary.available)
    ensures HandlerOk(l, OnProposalView(l, v, resp).value)
  {
    var n := OnProposalView(l, v, resp).value.l;
    Stays(l, n, if n.log == l.log then [] else [Consider(l.h, l.r, Fitting(l, v.headers), true)]);
  }

  lemma OnProposalViewKeeps(l: Life, v: View, resp: seq<Response>)
    requires Sound(l) && l.mode.Live? && l.step.AwaitingProposal? && OnProposalView(l, v, resp).Ok?
    ensures HandlerOk(l, OnProposalView(l, v, resp).value)
  {
    var vs := v.summary;
    var maj, min := ByzantineMajority(vs.available), ByzantineMinority(vs.available);
    if vs.precommits.total >= maj {
      if PowerFor(vs.precommits, vs.precommits.mostVoted) >= maj {
        CommittedKeeps(l, l.(timer := None), v, resp);
      } else {
        DelayKeeps(l, l.(timer := None), PrecommitDelay);
      }
    } else if vs.precommits.total >= min {
      Stays(l, OnProposalView(l, v, resp).value.l, [Decide(l.h, l.r, true)]);
    } else if vs.prevotes.total >= maj {
      ProposalPrevotesKeep(l, v, resp);
    } else {
      NewHeadersKeep(l, v, resp);
    }
  }

  lemma OnPrevoteViewKeeps(l: Life, v: View, resp: seq<Response>)
    requires Sound(l) && l.mode.Live? && (l.step.AwaitingPrevotes? || l.step.PrevoteDelay?) && OnPrevoteView(l, v, resp).Ok?
    ensures HandlerOk(l, OnPrevoteView(l, v, resp).value)
  {
    var vs := v.summary;
    var maj := ByzantineMajority(vs.available);
    assert StopIf(l, PrevoteDelay) == Ok(l.(timer := None));
    if vs.precommits.total >= maj {
      if PowerFor(vs.precommits, vs.precommits.mostVoted) >= maj {
        CommittedKeeps(l, l.(timer := None), v, resp);
      } else {
        DelayKeeps(l, l.(timer := None), PrecommitDelay);
      }
    } else {
      PrevotesKeep(l, v, resp);
    }
  }

  lemma DecideKeeps(l: Life, resp: seq<Response>)
    requires Sound(l) && l.mode.Live? && Rank(l.step) <= 3
    ensures HandlerOk(l, Done(AskDecide(l.(timer := None).(step := AwaitingPrecommits)), true, resp))
  {
    StaysOk(l, Done(AskDecide(l.(timer := None).(step := AwaitingPrecommits)), true, resp), [Decide(l.h, l.r, true)]);
  }

  lemma PrevoteDelayKeeps(l: Life, resp: seq<Response>)
    requires Sound(l) && l.mode.Live? && (l.step.AwaitingPrevotes? || l.step.PrevoteDelay?)
    ensures HandlerOk(l, Done(if l.step.AwaitingPrevotes? then StartDelay(l, PrevoteDelay) else l, true, resp))
  {
    if l.step.AwaitingPrevotes? {
      Stays(l, StartDelay(l, PrevoteDelay), [StartTimer(Timer(PrevoteDelay, l.h, l.r), true)]);
    }
  }

  lemma PrevotesKeep(l: Life, v: View, resp: seq<Response>)
    requires Sound(l) && l.mode.Live? && (l.step.AwaitingPrevotes? || l.step.PrevoteDelay?) && OnPrevoteView(l, v, resp).Ok?
    requires v.summary.precommits.total < ByzantineMajority(v.summary.available)
    ensures HandlerOk(l, OnPrevoteView(l, v, resp).value)
  {
    var vs := v.summary;
    assert StopIf(l, PrevoteDelay) == Ok(l.(timer := None));
    if vs.prevotes.total >= ByzantineMajority(vs.available) {
      if PowerFor(vs.prevotes, vs.prevotes.mostVoted) >= ByzantineMajority(vs.available) {
        DecideKeeps(l, resp);
      } else {
        PrevoteDelayKeeps(l, resp);
      }
    }
  }

  lemma OnPrecommitViewKeeps(l: Life, v: View, resp: seq<Response>)
    requires Sound(l) && l.mode.Live? && (l.step.AwaitingPrecommits? || l.step.PrecommitDelay?) && OnPrecommitView(l, v, resp).Ok?
    ensures HandlerOk(l, OnPrecommitView(l, v, resp).value)
  {
    var vs := v.summary;
    var maj := ByzantineMajority(vs.available);
    assert StopIf(l, PrecommitDelay) == Ok(l.(timer := None));
    if vs.precommits.total >= maj {
      if PowerFor(vs.precommits, vs.precommits.mostVoted) >= maj {
        if vs.precommits.mostVoted == NIL_HASH {
          LeavesRound(l, l, resp);
        } else {
          CommittedBlock(l, l.(timer := None), v, resp);
        }
      } else if vs.precommits.total == vs.available {
        LeavesRound(l, l, resp);
      } else {
        PrecommitDelayKeeps(l, v, resp);
      }
    }
  }

  lemma PrecommitDelayKeeps(l: Life, v: View, resp: seq<Response>)
    requires Sound(l) && l.mode.Live? && (l.step.AwaitingPrecommits? || l.step.PrecommitDelay?)
    ensures HandlerOk(l, Done(if l.step.AwaitingPrecommits? then StartDelay(l, PrecommitDelay) else l, true, resp))
  {
    if l.step.AwaitingPrecommits? {
      Stays(l, StartDelay(l, PrecommitDelay), [StartTimer(Timer(PrecommitDelay, l.h, l.r), true)]);
    }
  }

  lemma OnCommitWaitViewKeeps(l: Life, v: View, resp: seq<Response>)
    requires Sound(l) && l.mode.Live? && Rank(l.step) >= 6 && OnCommitWaitView(l, v, resp).Ok?
    ensures HandlerOk(l, OnCommitWaitView(l, v, resp).value)
  {
    var n := OnCommitWaitView(l, v, resp).value.l;
    match KernelSpec.FindHeader(v.headers, v.summary.precommits.mostVoted) {
      case None =>
      case Some(header) => Stays(l, n, if n.log == l.log then [] else [Finalize(l.h, l.r, header)]);
    }
  }

  lemma OnViewKeeps(l: Life, v: View, resp: seq<Response>)
    requires Sound(l) && l.mode.Live? && OnView(l, v, resp).Ok?
    ensures HandlerOk(l, OnView(l, v, resp).value)
  {
    match l.step {
      case AwaitingProposal => OnProposalViewKeeps(l, v, resp);
      case AwaitingPrevotes => OnPrevoteViewKeeps(l, v, resp);
      case PrevoteDelay => OnPrevoteViewKeeps(l, v, resp);
      case AwaitingPrecommits => OnPrecommitViewKeeps(l, v, resp);
      case PrecommitDelay => OnPrecommitViewKeeps(l, v, resp);
      case CommitWait => OnCommitWaitViewKeeps(l, v, resp);
      case AwaitingFinalization => OnCommitWaitViewKeeps(l, v, resp);
    }
  }

  /** Whether the state machine keeps the handled view decides whether it has the latest one. */
  lemma KeepViewKeeps(l: Life, d: Done, v: View)
    requires l.mode.Live? && ViewOk(l) && l.lastDelivered == v.version && Matches(v, l.h, l.r)
    requires HandlerOk(l, d) && d.l.mode.Live?
    ensures Inv(KeepView(d.l, v)) && Progress(d.l, KeepView(d.l, v))
  {
    var m := KeepView(d.l, v);
    KeepsLatest(l, d, v);
    KeptSound(d.l, m);
  }

  lemma KeepsLatest(l: Life, d: Done, v: View)
    requires l.mode.Live? && ViewOk(l) && l.lastDelivered == v.version && Matches(v, l.h, l.r)
    requires HandlerOk(l, d) && d.l.mode.Live?
    ensures var m := KeepView(d.l, v); m == d.l.(view := Kept(d.l.view, v))
    ensures ViewAt(Kept(d.l.view, v), LacksHeader(d.l.entered), d.l.h, d.l.r)
    ensures LatestAt(Kept(d.l.view, v), LacksHeader(d.l.entered), d.l.lastDelivered)
  {
    if d.l.h == l.h && d.l.r == l.r {
      KeptSameRound(l.view, LacksHeader(d.l.entered), v, l.h, l.r);
    } else {
      KeptLaterRound(d.l.view, LacksHeader(d.l.entered), v, d.l.h, d.l.r);
    }
  }

  function Kept(view: Option<View>, v: View): Option<View> {
    if view.Some? && Matches(view.value, v.h, v.r) then Some(v) else view
  }

  lemma KeptSameRound(view: Option<View>, blind: bool, v: View, h: nat, r: nat)
    requires ViewAt(view, blind, h, r) && Matches(v, h, r)
    ensures ViewAt(Kept(view, v), blind, h, r) && LatestAt(Kept(view, v), blind, v.version)
  {
  }

  lemma KeptLaterRound(view: Option<View>, blind: bool, v: View, h: nat, r: nat)
    requires ViewAt(view, blind, h, r) && HRLess(v.h, v.r, h, r)
    ensures ViewAt(Kept(view, v), blind, h, r) && (!blind ==> Kept(view, v) == view)
  {
  }

  lemma KeptSound(l: Life, m: Life)
    requires Sound(l) && l.mode.Live? && m == l.(view := m.view) && ViewAt(m.view, LacksHeader(l.entered), l.h, l.r)
    ensures Sound(m) && Progress(l, m)
  {
    LogSame(l, m);
    PipelineKept(l, m);
  }

  lemma JumpKeeps(l: Life, jump: View, resp: seq<Response>)
    requires Sound(l) && l.mode.Live? && JumpAhead(l, jump, resp).Ok?
    ensures var d := JumpAhead(l, jump, resp).value; Inv(d.l) && Progress(l, d.l)
  {
    LeavesRound(l, l, resp);
  }

  lemma DeliveredSound(l: Life, version: nat)
    requires Sound(l)
    ensures Sound(l.(lastDelivered := version))
  {
    LogSame(l, l.(lastDelivered := version));
  }

  lemma ViewUpdateKeeps(l: Life, vrv: Option<View>, jump: Option<View>, resp: seq<Response>)
    requires Inv(l) && l.mode.Live? && ViewUpdate(l, vrv, jump, resp).Ok?
    ensures var d := ViewUpdate(l, vrv, jump, resp).value; Inv(d.l) && Progress(l, d.l)
  {
    match vrv {
      case None => JumpKeeps(l, jump.value, resp);
      case Some(v) =>
        if Matches(v, l.h, l.r) {
          if v.version <= l.view.value.version {
            TerminatedKeeps(l);
          } else {
            MatchingViewKeeps(l, v, jump, resp);
          }
        }
    }
  }

  lemma TerminatedKeeps(l: Life)
    requires Inv(l) && l.mode.Live?
    ensures Inv(l.(mode := Terminated))
  {
    LogSame(l, l.(mode := Terminated));
  }

  lemma MatchingViewKeeps(l: Life, v: View, jump: Option<View>, resp: seq<Response>)
    requires Inv(l) && l.mode.Live? && Matches(v, l.h, l.r) && v.version > l.view.value.version
    requires ViewUpdate(l, Some(v), jump, resp).Ok?
    ensures var d := ViewUpdate(l, Some(v), jump, resp).value; Inv(d.l) && Progress(l, d.l)
  {
    var l0 := l.(lastDelivered := v.version);
    DeliveredSound(l, v.version);
    OnViewKeeps(l0, v, resp);
    var d := OnView(l0, v, resp).value;
    ProgressTrans(l, l0, d.l);
    if d.l.mode.Live? {
      KeepViewKeeps(l0, d, v);
      var m := KeepView(d.l, v);
      ProgressTrans(l, d.l, m);
      if jump.Some? {
        JumpKeeps(m, jump.value, d.rest);
        ProgressTrans(l, m, JumpAhead(m, jump.value, d.rest).value.l);
      }
    }
  }
}
