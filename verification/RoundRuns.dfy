/** Whole runs of the state machine from genesis, and what they guarantee. */
module RoundRuns {
  import opened Options
  import opened Quorum
  import opened Votes
  import opened Views
  import KernelSpec
  import opened RoundSpec
  import opened RoundInv
  import opened RoundSteps

  // ----- One event -----

  ghost predicate EventOk(l: Life, m: Life) {
    Inv(m) && Progress(l, m)
  }

  lemma StopsOk(l: Life, m: Life)
    requires Inv(l) && l.mode.Live?
    requires m == l.(mode := Halted, finVals := m.finVals, finAppHash := m.finAppHash, finBlockHash := m.finBlockHash,
                     finalizeCh := m.finalizeCh)
    ensures EventOk(l, m)
  {
    LogSame(l, m);
  }

  lemma SettleOk(l: Life, d: Done)
    requires EventOk(l, d.l)
    ensures EventOk(l, Settle(d))
  {
    if !d.ok && d.l.mode.Live? {
      StopsOk(d.l, Settle(d));
      ProgressTrans(l, d.l, Settle(d));
    }
  }

  /** Staying in a round, for the whole invariant. */
  lemma StaysInv(l: Life, m: Life, extra: seq<Request>)
    requires Inv(l) && l.mode.Live? && SameRound(l, m) && Rank(l.step) <= Rank(m.step)
    requires MoreRequests(l, m, extra) && TimerOk(m) && ChannelsOk(m)
    ensures EventOk(l, m)
  {
    Stays(l, m, extra);
  }

  lemma ProposalKeeps(l: Life, saved: bool, resp: seq<Response>)
    requires Inv(l) && Enabled(l, ProposalIn(saved)) && OnProposal(l, saved, resp).Ok?
    ensures EventOk(l, OnProposal(l, saved, resp).value.l)
  {
    StaysInv(l, OnProposal(l, saved, resp).value.l, []);
  }

  lemma PrevoteRecorded(l: Life, sent: nat)
    requires Inv(l) && l.mode.Live? && l.prevoteCh && sent == l.sent + One(Participating(l)) && PrevoteDone(l.(sent := sent)).Ok?
    ensures EventOk(l, PrevoteDone(l.(sent := sent)).value)
  {
    StaysInv(l, PrevoteDone(l.(sent := sent)).value, []);
  }

  lemma PrevoteKeeps(l: Life, hash: Option<Hash>, saved: bool, resp: seq<Response>)
    requires Inv(l) && Enabled(l, PrevoteIn(hash, saved)) && OnPrevote(l, hash, saved, resp).Ok?
    ensures EventOk(l, OnPrevote(l, hash, saved, resp).value.l)
  {
    if hash.None? || (Participating(l) && !saved) {
      StaysInv(l, l, []);
    } else {
      var sent := SendVote(l).value.sent;
      assert SendVote(l).value == l.(sent := sent);
      PrevoteRecorded(l, sent);
    }
  }

  lemma PrecommitKeeps(l: Life, hash: Option<Hash>, saved: bool, resp: seq<Response>)
    requires Inv(l) && Enabled(l, PrecommitIn(hash, saved)) && OnPrecommit(l, hash, saved, resp).Ok?
    ensures EventOk(l, OnPrecommit(l, hash, saved, resp).value.l)
  {
    StaysInv(l, OnPrecommit(l, hash, saved, resp).value.l, []);
  }

  lemma DataKeeps(l: Life, ah: nat, ar: nat, someNeeded: bool, resp: seq<Response>)
    requires Inv(l) && l.mode.Live? && OnDataArrived(l, ah, ar, someNeeded, resp).Ok?
    ensures EventOk(l, OnDataArrived(l, ah, ar, someNeeded, resp).value.l)
  {
    var m := OnDataArrived(l, ah, ar, someNeeded, resp).value.l;
    StaysInv(l, m, if m.log == l.log then [] else [Consider(l.h, l.r, Fitting(l, l.view.value.headers), true)]);
  }

  lemma LeavesInv(l: Life, resp: seq<Response>)
    requires Inv(l) && l.mode.Live? && AdvanceRound(l.(timer := None), resp).Ok?
    ensures EventOk(l, AdvanceRound(l.(timer := None), resp).value.l)
  {
    LeavesRound(l, l.(timer := None), resp);
  }

  lemma ProposalTimeoutKeeps(l: Life, resp: seq<Response>)
    requires Inv(l) && l.mode.Live? && l.step.AwaitingProposal? && OnTimer(l, resp).Ok?
    ensures EventOk(l, OnTimer(l, resp).value.l)
  {
    StaysInv(l, OnTimer(l, resp).value.l, [Choose(l.h, l.r, Fitting(l, l.view.value.headers), true)]);
  }

  lemma PrevoteTimeoutKeeps(l: Life, resp: seq<Response>)
    requires Inv(l) && l.mode.Live? && l.step.PrevoteDelay? && OnTimer(l, resp).Ok?
    ensures EventOk(l, OnTimer(l, resp).value.l)
  {
    StaysInv(l, OnTimer(l, resp).value.l, [Decide(l.h, l.r, true)]);
  }

  lemma TimerKeeps(l: Life, resp: seq<Response>)
    requires Inv(l) && Enabled(l, TimerElapsed) && OnTimer(l, resp).Ok?
    ensures EventOk(l, OnTimer(l, resp).value.l)
  {
    match l.step {
      case AwaitingProposal => ProposalTimeoutKeeps(l, resp);
      case PrevoteDelay => PrevoteTimeoutKeeps(l, resp);
      case PrecommitDelay => LeavesInv(l, resp);
      case CommitWait => CommitWaitOverKeeps(l, l.(timer := None), resp);
      case _ =>
    }
  }

  /** The end of the commit wait, with the timer gone. */
  lemma CommitWaitOverKeeps(l: Life, m: Life, resp: seq<Response>)
    requires Inv(l) && l.mode.Live? && l.step.CommitWait?
    requires m == l.(timer := None, heightCommittedCh := m.heightCommittedCh) && CommitWaitOver(m, resp).Ok?
    ensures EventOk(l, CommitWaitOver(m, resp).value.l)
  {
    if l.finVals.keys == [] {
      Stays(l, CommitWaitOver(m, resp).value.l, []);
    } else {
      LogSame(l, m);
      PipelineKept(l, m);
      AdvanceHeightKeeps(m, resp);
    }
  }

  lemma HeightCommittedKeeps(l: Life, resp: seq<Response>)
    requires Inv(l) && l.mode.Live? && OnHeightCommitted(l, resp).Ok?
    ensures EventOk(l, OnHeightCommitted(l, resp).value.l)
  {
    if l.step.CommitWait? {
      CommitWaitOverKeeps(l, l.(heightCommittedCh := false, timer := None), resp);
    } else {
      StaysInv(l, OnHeightCommitted(l, resp).value.l, []);
    }
  }

  lemma FinalizationCases(l: Life, fin: FinResponse, saved: bool, resp: seq<Response>)
    requires l.mode.Live? && OnFinalization(l, fin, saved, resp).Ok?
    ensures fin.vals.keys != []
    ensures
      var d := OnFinalization(l, fin, saved, resp).value;
      if !saved || l.h in l.store then
        Settle(d) == l.(mode := Halted, finVals := fin.vals, finAppHash := fin.appHash, finBlockHash := fin.blockHash, finalizeCh := false)
      else if l.step.AwaitingFinalization? then AdvanceHeight(Finalized(l, fin), resp) == Ok(d)
      else Settle(d) == Finalized(l, fin)
  {
  }

  lemma FinalizationKeeps(l: Life, fin: FinResponse, saved: bool, resp: seq<Response>)
    requires Inv(l) && l.mode.Live? && OnFinalization(l, fin, saved, resp).Ok?
    ensures EventOk(l, Settle(OnFinalization(l, fin, saved, resp).value))
  {
    FinalizationCases(l, fin, saved, resp);
    var d := OnFinalization(l, fin, saved, resp).value;
    if !saved || l.h in l.store {
      StopsOk(l, Settle(d));
    } else {
      FinalizedOk(l, fin);
      if l.step.AwaitingFinalization? {
        FinalizedAdvances(l, Finalized(l, fin), resp);
        SettleOk(l, d);
      }
    }
  }

  lemma FinalizedAdvances(l: Life, m: Life, resp: seq<Response>)
    requires Inv(l) && EventOk(l, m) && m.mode.Live? && m.h == l.h && m.r == l.r && m.h in m.store && AdvanceHeight(m, resp).Ok?
    ensures EventOk(l, AdvanceHeight(m, resp).value.l)
  {
    AdvanceHeightKeeps(m, resp);
    FinalizedExtends(l, m, AdvanceHeight(m, resp).value.l);
  }

  function Finalized(l: Life, fin: FinResponse): Life {
    l.(finVals := fin.vals, finAppHash := fin.appHash, finBlockHash := fin.blockHash, finalizeCh := false,
       store := l.store[l.h := Finalization(l.r, fin.blockHash, fin.vals, fin.appHash)])
  }

  lemma FinalizedOk(l: Life, fin: FinResponse)
    requires Inv(l) && l.mode.Live? && l.h !in l.store && fin.vals.keys != []
    ensures EventOk(l, Finalized(l, fin))
  {
    LogSame(l, Finalized(l, fin));
  }

  lemma FinalizedExtends(l: Life, l2: Life, m: Life)
    requires Extends(l, l2) && Extends(l2, m) && l2.h == l.h && l2.r == l.r && HRLess(l2.h, l2.r, m.h, m.r)
    ensures Progress(l, m)
  {
  }

  /** Every event keeps the invariants and moves (H, R, Step) forward. */
  lemma StepKeeps(l: Life, e: Event, resp: seq<Response>)
    requires Inv(l) && Enabled(l, e) && Iterate(l, e, resp).Ok?
    ensures EventOk(l, Iterate(l, e, resp).value)
  {
    match e {
      case ViewIn(vrv, jump) => ViewUpdateKeeps(l, vrv, jump, resp);
      case ProposalIn(saved) => ProposalKeeps(l, saved, resp);
      case PrevoteIn(hash, saved) => PrevoteKeeps(l, hash, saved, resp);
      case PrecommitIn(hash, saved) => PrecommitKeeps(l, hash, saved, resp);
      case FinalizationIn(fin, saved) => FinalizationKeeps(l, fin, saved, resp);
      case TimerElapsed => TimerKeeps(l, resp);
      case HeightCommitted => HeightCommittedKeeps(l, resp);
      case DataArrived(ah, ar, someNeeded) => DataKeeps(l, ah, ar, someNeeded, resp);
    }
    if !e.FinalizationIn? {
      SettleOk(l, Handle(l, e, resp).value);
    }
  }

  // ----- Runs -----

  /** How a state machine is started at genesis, and what the mirror answers to its first entrance. */
  datatype Config = Config(
    signer: Option<Key>, initialHeight: nat, vals: ValSet, appHash: string, blockHash: string,
    content: View, resp: seq<Response>)

  function Begin(c: Config): Res<Done> {
    StartLive(AtGenesis(c.signer, c.initialHeight, c.vals, c.appHash, c.blockHash), c.content, c.resp)
  }

  predicate Starts(c: Config) {
    Begin(c).Ok? && Begin(c).value.ok
  }

  datatype Turn = Turn(event: Event, resp: seq<Response>)

  /** A run of live events; what is not enabled does not happen. */
  ghost function RunFrom(l: Life, ts: seq<Turn>): Res<Life> {
    if |ts| == 0 then Ok(l)
    else
      var m :- RunFrom(l, ts[..|ts| - 1]);
      var t := ts[|ts| - 1];
      if Enabled(m, t.event) then Iterate(m, t.event, t.resp) else Ok(m)
  }

  ghost function RunOf(c: Config, ts: seq<Turn>): Res<Life>
    requires Starts(c)
  {
    RunFrom(Begin(c).value.l, ts)
  }

  lemma StartKeeps(c: Config)
    requires Starts(c)
    ensures Inv(Begin(c).value.l)
  {
    var l := AtGenesis(c.signer, c.initialHeight, c.vals, c.appHash, c.blockHash);
    EnterKeeps(l, c.content.(h := l.h, r := l.r, headers := Fitting(l, c.content.headers)), c.resp);
  }

  lemma {:induction false} RunKeepsRound(c: Config, ts: seq<Turn>)
    requires Starts(c) && RunOf(c, ts).Ok?
    ensures Inv(RunOf(c, ts).value)
  {
    if |ts| == 0 {
      StartKeeps(c);
    } else {
      RunKeepsRound(c, ts[..|ts| - 1]);
      var m := RunOf(c, ts[..|ts| - 1]).value;
      var t := ts[|ts| - 1];
      if Enabled(m, t.event) { StepKeeps(m, t.event, t.resp); }
    }
  }

  /** Between any two points of a run, (H, R, Step) did not go back, and neither requests nor stored
    finalizations were taken back. */
  lemma {:induction false} StepsOnlyAdvance(c: Config, ts: seq<Turn>, i: nat)
    requires Starts(c) && i <= |ts| && RunOf(c, ts).Ok?
    ensures RunOf(c, ts[..i]).Ok? && Progress(RunOf(c, ts[..i]).value, RunOf(c, ts).value)
    decreases |ts|
  {
    if i == |ts| {
      assert ts[..i] == ts;
    } else {
      var front := ts[..|ts| - 1];
      assert front[..i] == ts[..i];
      StepsOnlyAdvance(c, front, i);
      RunKeepsRound(c, front);
      var m := RunOf(c, front).value;
      var t := ts[|ts| - 1];
      if Enabled(m, t.event) { StepKeeps(m, t.event, t.resp); }
      ProgressTrans(RunOf(c, ts[..i]).value, m, RunOf(c, ts).value);
    }
  }

  // ----- What every run guarantees -----

  /** The strategy decides a precommit at most once per round, over the whole run; every request carries
    a channel for its answer; no timer is started while another is outstanding. */
  lemma RequestsAreSound(c: Config, ts: seq<Turn>)
    requires Starts(c) && RunOf(c, ts).Ok?
    ensures
      var log := RunOf(c, ts).value.log;
      && (forall q :: q in log ==> RequestOk(q))
      && (forall i, j :: 0 <= i < j < |log| && log[i].Decide? && log[j].Decide? ==> RoundOf(log[i]) != RoundOf(log[j]))
  {
    RunKeepsRound(c, ts);
    var l := RunOf(c, ts).value;
    forall q | q in l.log ensures RequestOk(q) {
      var i :| 0 <= i < |l.log| && l.log[i] == q;
      assert LogAt(l, i);
    }
  }

  /** A timer is outstanding exactly in the timed steps, and it is this step's, so a timer never elapses
    in a step that does not expect it. */
  lemma TimersAreExact(c: Config, ts: seq<Turn>, resp: seq<Response>)
    requires Starts(c) && RunOf(c, ts).Ok? && RunOf(c, ts).value.mode.Live?
    ensures
      var l := RunOf(c, ts).value;
      && (l.timer.Some? <==> Timed(l.step))
      && (l.timer.Some? ==> l.timer.value == Timer(l.step, l.h, l.r))
      && (Enabled(l, TimerElapsed) && (l.step.AwaitingProposal? || l.step.PrevoteDelay?) ==> Handle(l, TimerElapsed, resp).Ok?)
      && (Enabled(l, TimerElapsed) && l.step.PrecommitDelay? ==>
            Handle(l, TimerElapsed, resp) == AdvanceRound(l.(timer := None), resp))
      && (Enabled(l, TimerElapsed) && l.step.CommitWait? ==>
            Handle(l, TimerElapsed, resp) == CommitWaitOver(l.(timer := None), resp))
  {
    RunKeepsRound(c, ts);
  }

  /** The mirror's word that the height is committed: before the commit wait it is a panic, and from then
    on it ends the commit wait, entering the next height exactly if this one is finalized. */
  lemma HeightCommittedHandled(c: Config, ts: seq<Turn>, resp: seq<Response>)
    requires Starts(c) && RunOf(c, ts).Ok? && RunOf(c, ts).value.mode.Live?
    ensures
      var l := RunOf(c, ts).value;
      var o := Handle(l, HeightCommitted, resp);
      && (Rank(l.step) < Rank(CommitWait) ==> o.Panic?)
      && (Rank(l.step) >= Rank(CommitWait) && l.h !in l.store ==>
            o == Ok(Done(l.(step := AwaitingFinalization, timer := None, heightCommittedCh := false), true, resp)))
      && (l.step.CommitWait? && l.h in l.store ==>
            o == AdvanceHeight(l.(timer := None, heightCommittedCh := false), resp))
  {
    RunKeepsRound(c, ts);
  }

  /** Votes chosen by the strategy, and data arrivals, are always handled: no nil timer is cancelled, and
    the three slots of the action channel are enough, so sending an action never blocks. */
  lemma AnswersNeverBlock(c: Config, ts: seq<Turn>, e: Event, resp: seq<Response>)
    requires Starts(c) && RunOf(c, ts).Ok? && Enabled(RunOf(c, ts).value, e)
    requires e.PrevoteIn? || e.PrecommitIn? || e.DataArrived?
    ensures Handle(RunOf(c, ts).value, e, resp).Ok?
  {
    RunKeepsRound(c, ts);
  }

  /** A proposal is another matter, for every strategy is given the channel to send one. Once saved, it is
    handled exactly when the state machine takes part in the height; otherwise the engine asks a missing
    signer for its key, or sends on a missing channel for good. */
  lemma ProposalHandledIff(c: Config, ts: seq<Turn>, resp: seq<Response>)
    requires Starts(c) && RunOf(c, ts).Ok? && Enabled(RunOf(c, ts).value, ProposalIn(true))
    ensures Handle(RunOf(c, ts).value, ProposalIn(true), resp).Ok? <==> Participating(RunOf(c, ts).value)
  {
    RunKeepsRound(c, ts);
  }

  /** A state machine without a signer, and one whose key is not among the validators, at genesis: both can
    be given a proposal that they cannot handle. */
  lemma BystandersProposalFails(signer: Option<Key>)
    requires signer == None || signer == Some(8)
    ensures
      var vals := ValSet([7], [1]);
      var blank := View(0, 0, vals, [], EMPTY_BALLOT, EMPTY_BALLOT, VoteSummary(1, EMPTY_TALLY, EMPTY_TALLY), 1);
      var c := Config(signer, 1, vals, "", "", blank, []);
      && Starts(c) && Enabled(Begin(c).value.l, ProposalIn(true))
      && Handle(Begin(c).value.l, ProposalIn(true), []).Panic?
  {
  }

  /** The validator pipeline: at every height the set in force is the one finalized two heights below,
    and the next set to propose the one finalized just below; genesis stands in for missing heights.
    Exactly the heights before the current one are finalized. */
  lemma ValidatorPipeline(c: Config, ts: seq<Turn>)
    requires Starts(c) && RunOf(c, ts).Ok?
    ensures
      var l := RunOf(c, ts).value;
      && l.curVals == ValsAt(l, l.h - 2) && l.prevFinNextVals == ValsAt(l, l.h - 1) && l.prevVals == ValsAt(l, l.h - 3)
      && l.prevFinAppHash == AppHashAt(l, l.h - 1)
      && (l.h > 0 && l.h - 1 in l.store ==> l.prevBlockHash == l.store[l.h - 1].blockHash)
      && (forall k :: c.initialHeight <= k < l.h ==> k in l.store)
      && (forall k :: k in l.store ==> c.initialHeight <= k <= l.h)
      && l.genesis == c.vals
  {
    RunKeepsRound(c, ts);
    GenesisStays(c, ts);
  }

  lemma GenesisStays(c: Config, ts: seq<Turn>)
    requires Starts(c) && RunOf(c, ts).Ok?
    ensures RunOf(c, ts).value.genesis == c.vals && RunOf(c, ts).value.initialHeight == c.initialHeight
  {
    StepsOnlyAdvance(c, ts, 0);
    var l := AtGenesis(c.signer, c.initialHeight, c.vals, c.appHash, c.blockHash);
    EnterKeeps(l, c.content.(h := l.h, r := l.r, headers := Fitting(l, c.content.headers)), c.resp);
    assert ts[..0] == [];
  }

  /** A header that fits at one height names as next validators exactly those in force at the next. */
  lemma FittingHeaderNamesNextVals(c: Config, ts: seq<Turn>, i: nat, ph: ProposedHeader)
    requires Starts(c) && i <= |ts| && RunOf(c, ts).Ok? && RunOf(c, ts[..i]).Ok?
    requires RunOf(c, ts).value.h == RunOf(c, ts[..i]).value.h + 1
    requires Fits(RunOf(c, ts[..i]).value, ph)
    ensures ph.header.nextVals == RunOf(c, ts).value.curVals
    ensures ph.header.vals == RunOf(c, ts).value.prevVals
  {
    StepsOnlyAdvance(c, ts, i);
    RunKeepsRound(c, ts);
    RunKeepsRound(c, ts[..i]);
    StoreAgrees(RunOf(c, ts[..i]).value, RunOf(c, ts).value);
  }

  lemma StoreAgrees(l: Life, m: Life)
    requires PipelineOk(l) && PipelineOk(m) && Extends(l, m) && m.h == l.h + 1
    ensures m.curVals == l.prevFinNextVals && m.prevVals == l.curVals
  {
    assert ValsAt(m, l.h - 1) == ValsAt(l, l.h - 1);
    assert ValsAt(m, l.h - 2) == ValsAt(l, l.h - 2);
  }

  // ----- The state machine's own view -----

  /** The kept view is of the current round, and the latest delivered, exactly when the round was not
    entered with a committed block whose header was missing. */
  lemma ViewIsCurrent(c: Config, ts: seq<Turn>)
    requires Starts(c) && RunOf(c, ts).Ok? && RunOf(c, ts).value.mode.Live?
    ensures
      var l := RunOf(c, ts).value;
      && l.view.Some?
      && (Matches(l.view.value, l.h, l.r) <==> !LacksHeader(l.entered))
      && (!LacksHeader(l.entered) ==> l.view.value.version == l.lastDelivered)
  {
    RunKeepsRound(c, ts);
  }

  /** When the mirror delivers a newer view of the round, the state machine takes it for stale and
    terminates exactly when it entered the round without the committed header and the new version does
    not exceed that of the view it still holds from an earlier round. */
  lemma TerminatesExactly(c: Config, ts: seq<Turn>, v: View, jump: Option<View>, resp: seq<Response>)
    requires Starts(c) && RunOf(c, ts).Ok?
    requires var l := RunOf(c, ts).value; Enabled(l, ViewIn(Some(v), jump)) && Matches(v, l.h, l.r)
    ensures
      var l := RunOf(c, ts).value;
      ViewUpdate(l, Some(v), jump, resp) == Ok(Done(l.(mode := Terminated), true, resp))
      <==> LacksHeader(l.entered) && l.view.Some? && v.version <= l.view.value.version
  {
    RunKeepsRound(c, ts);
    var l := RunOf(c, ts).value;
    if v.version > l.view.value.version && ViewUpdate(l, Some(v), jump, resp).Ok? {
      NewerViewTaken(l, v, jump, resp);
    }
  }

  /** A newer view is taken note of, or the round is left. */
  lemma NewerViewTaken(l: Life, v: View, jump: Option<View>, resp: seq<Response>)
    requires Inv(l) && l.mode.Live? && Matches(v, l.h, l.r) && v.version > l.view.value.version
    requires ViewUpdate(l, Some(v), jump, resp).Ok?
    ensures var m := ViewUpdate(l, Some(v), jump, resp).value.l;
            (m.h == l.h && m.r == l.r ==> m.mode.Live?)
  {
    var l0 := l.(lastDelivered := v.version);
    DeliveredSound(l, v.version);
    OnViewKeeps(l0, v, resp);
    var d := OnView(l0, v, resp).value;
    if d.l.mode.Live? && jump.Some? {
      var m := KeepView(d.l, v);
      KeepViewKeeps(l0, d, v);
      LeavesRound(m, m, d.rest);
    }
  }

  /** After such an entrance the kept view never catches up within the round: every further view leaves
    it as it is, and requests a finalization again whenever it has the header. */
  lemma StaysBehind(c: Config, ts: seq<Turn>, v: View, resp: seq<Response>)
    requires Starts(c) && RunOf(c, ts).Ok?
    requires var l := RunOf(c, ts).value; l.mode.Live? && Matches(v, l.h, l.r) && LacksHeader(l.entered)
    requires RunOf(c, ts).value.view.Some? && v.version > RunOf(c, ts).value.view.value.version
    ensures
      var l := RunOf(c, ts).value;
      var kept := l.view.value;
      var found := KernelSpec.FindHeader(v.headers, v.summary.precommits.mostVoted);
      var asks := l.finalizeCh && found.Some?
                  && KernelSpec.FindHeader(kept.headers, kept.summary.precommits.mostVoted).None?;
      ViewUpdate(l, Some(v), None, resp)
      == Ok(Done(l.(lastDelivered := v.version,
                    log := if asks then l.log + [Finalize(l.h, l.r, found.value)] else l.log), true, resp))
  {
    RunKeepsRound(c, ts);
  }
}
