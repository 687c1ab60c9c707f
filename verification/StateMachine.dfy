/** The state machine over its mutable round lifecycle. Every handler either panics or leaves exactly
  the state the specification gives, with the same result and the same requests in the same order. */
module StateMachines {
  import opened Options
  import opened Quorum
  import opened Votes
  import opened Views
  import KernelSpec
  import Spec = RoundSpec
  import RoundInv
  import RoundRuns

  /** From a state with the invariants of a run, an event that can happen leads to another, not earlier in
    height, round and step, with nothing taken back. */
  ghost predicate Kept(l: Spec.Life, e: Spec.Event, m: Spec.Life) {
    RoundInv.Inv(l) && Spec.Enabled(l, e) ==> RoundInv.Inv(m) && RoundInv.Progress(l, m)
  }

  lemma IterateKeeps(l: Spec.Life, e: Spec.Event, resp: seq<Spec.Response>)
    ensures Spec.Iterate(l, e, resp).Ok? ==> Kept(l, e, Spec.Iterate(l, e, resp).value)
  {
    if RoundInv.Inv(l) && Spec.Enabled(l, e) && Spec.Iterate(l, e, resp).Ok? {
      RoundRuns.StepKeeps(l, e, resp);
    }
  }

  class RoundLifecycle {
    var h: nat
    var r: nat
    var s: Spec.Step
    var stepTimer: Option<Spec.Timer>
    var heightCommitted: bool
    var curValSet: ValSet
    var prevValSet: ValSet
    var vrv: Option<View>
    var prevBlockHash: string
    var prevFinNextValSet: ValSet
    var prevFinAppStateHash: string
    var outgoingActionsCh: bool
    var proposalCh: bool
    var prevoteHashCh: bool
    var precommitHashCh: bool
    var finalizeRespCh: bool
    var finalizedValSet: ValSet
    var finalizedAppStateHash: string
    var finalizedBlockHash: string
    ghost var asked: bool
    ghost var lastDelivered: nat
    ghost var entered: View

    constructor (h: nat, vals: ValSet, appHash: string, blockHash: string)
      ensures this.h == h && r == 0 && s == Spec.AwaitingProposal && stepTimer == None && heightCommitted
      ensures curValSet == prevValSet == prevFinNextValSet == vals && vrv == None
      ensures prevBlockHash == blockHash && prevFinAppStateHash == appHash && !outgoingActionsCh
      ensures proposalCh && prevoteHashCh && precommitHashCh && finalizeRespCh
      ensures finalizedValSet == Spec.NO_VALS && finalizedAppStateHash == "" && finalizedBlockHash == ""
      ensures !asked && lastDelivered == 0 && entered == ZERO_VIEW
    {
      this.h, r, s, stepTimer, heightCommitted := h, 0, Spec.AwaitingProposal, None, true;
      curValSet, prevValSet, prevFinNextValSet, vrv := vals, vals, vals, None;
      prevBlockHash, prevFinAppStateHash, outgoingActionsCh := blockHash, appHash, false;
      proposalCh, prevoteHashCh, precommitHashCh, finalizeRespCh := true, true, true, true;
      finalizedValSet, finalizedAppStateHash, finalizedBlockHash := Spec.NO_VALS, "", "";
      asked, lastDelivered, entered := false, 0, ZERO_VIEW;
    }

    method Reset(nh: nat, nr: nat)
      modifies this`h, this`r, this`stepTimer, this`proposalCh, this`prevoteHashCh, this`precommitHashCh,
               this`finalizeRespCh, this`heightCommitted, this`asked
      ensures h == nh && r == nr && stepTimer == None && !asked
      ensures proposalCh && prevoteHashCh && precommitHashCh && finalizeRespCh && heightCommitted
    {
      h := nh;
      r := nr;
      if stepTimer.Some? {
        stepTimer := None;
      }
      proposalCh, prevoteHashCh, precommitHashCh := true, true, true;
      finalizeRespCh := true;
      heightCommitted := true;
      asked := false;
    }

    method MarkCatchingUp()
      modifies this`proposalCh, this`prevoteHashCh, this`precommitHashCh
      ensures !proposalCh && !prevoteHashCh && !precommitHashCh
    {
      proposalCh := false;
      prevoteHashCh := false;
      precommitHashCh := false;
    }

    method CycleFinalization()
      modifies this`prevFinNextValSet, this`prevValSet, this`curValSet, this`finalizedValSet,
               this`prevFinAppStateHash, this`finalizedAppStateHash, this`prevBlockHash, this`finalizedBlockHash
      ensures prevFinNextValSet == old(finalizedValSet) && prevValSet == old(curValSet) && curValSet == old(prevFinNextValSet)
      ensures finalizedValSet == Spec.NO_VALS && finalizedAppStateHash == "" && finalizedBlockHash == ""
      ensures prevFinAppStateHash == old(finalizedAppStateHash) && prevBlockHash == old(finalizedBlockHash)
    {
      prevFinNextValSet, prevValSet, curValSet, finalizedValSet := finalizedValSet, curValSet, prevFinNextValSet, Spec.NO_VALS;
      prevFinAppStateHash, finalizedAppStateHash := finalizedAppStateHash, "";
      prevBlockHash, finalizedBlockHash := finalizedBlockHash, "";
    }
  }

  class FinalizationStore {
    var byHeight: map<nat, Spec.Finalization>

    constructor ()
      ensures byHeight == map[]
    {
      byHeight := map[];
    }

    method SaveFinalization(height: nat, round: nat, blockHash: string, vals: ValSet, appHash: string) returns (ok: bool)
      modifies this
      ensures ok == (height !in old(byHeight))
      ensures byHeight == if ok then old(byHeight)[height := Spec.Finalization(round, blockHash, vals, appHash)] else old(byHeight)
    {
      if height in byHeight {
        return false;
      }
      byHeight := byHeight[height := Spec.Finalization(round, blockHash, vals, appHash)];
      return true;
    }
  }

  /** What a handler reports, against its specification. */
  ghost predicate Reports(panicked: bool, ok: bool, rest: seq<Spec.Response>, o: Spec.Res<Spec.Done>, l: Spec.Life) {
    (panicked <==> o.Panic?) && (o.Ok? ==> o.value == Spec.Done(l, ok, rest))
  }

  class StateMachine {
    const signer: Option<Key>
    const genesis: ValSet
    const genesisAppHash: string
    const initialHeight: nat
    const rlc: RoundLifecycle
    const fStore: FinalizationStore
    var mode: Spec.Mode
    var sent: nat
    var requests: seq<Spec.Request>

    ghost function Model(): Spec.Life
      reads this, rlc, fStore
    {
      Spec.Life(
        mode, signer, genesis, genesisAppHash, initialHeight,
        rlc.h, rlc.r, rlc.s, rlc.stepTimer, rlc.heightCommitted,
        rlc.curValSet, rlc.prevValSet, rlc.prevFinNextValSet, rlc.prevFinAppStateHash, rlc.prevBlockHash,
        rlc.vrv, rlc.outgoingActionsCh, sent,
        rlc.proposalCh, rlc.prevoteHashCh, rlc.precommitHashCh, rlc.finalizeRespCh,
        rlc.finalizedValSet, rlc.finalizedAppStateHash, rlc.finalizedBlockHash,
        fStore.byHeight, requests, rlc.asked, rlc.lastDelivered, rlc.entered)
    }

    constructor (signer: Option<Key>, initialHeight: nat, vals: ValSet, appHash: string, blockHash: string)
      ensures fresh(rlc) && fresh(fStore)
      ensures Model() == Spec.AtGenesis(signer, initialHeight, vals, appHash, blockHash)
    {
      this.signer, genesis, genesisAppHash, this.initialHeight := signer, vals, appHash, initialHeight;
      rlc := new RoundLifecycle(initialHeight, vals, appHash, blockHash);
      fStore := new FinalizationStore();
      mode, sent, requests := Spec.Live, 0, [];
    }

    // ----- Small pieces -----

    method Request(q: Spec.Request)
      modifies this`requests
      ensures requests == old(requests) + [q]
    {
      requests := requests + [q];
    }

    method StartTimer(s: Spec.Step)
      modifies this`requests, rlc`stepTimer
      ensures Model() == Spec.Start(old(Model()), s)
    {
      Request(Spec.StartTimer(Spec.Timer(s, rlc.h, rlc.r), rlc.stepTimer.None?));
      rlc.stepTimer := Some(Spec.Timer(s, rlc.h, rlc.r));
    }

    method CancelTimer() returns (panicked: bool)
      modifies rlc`stepTimer
      ensures panicked <==> old(rlc.stepTimer).None?
      ensures Model() == old(Model()).(timer := None)
    {
      panicked := rlc.stepTimer.None?;
      rlc.stepTimer := None;
    }

    method IsParticipating() returns (b: bool)
      ensures b == Spec.Participating(Model())
    {
      if signer.None? {
        return false;
      }
      b := signer.value in rlc.curValSet.keys;
    }

    /** The proposed headers that fit, in order. */
    method RejectMismatchedProposedHeaders(phs: seq<ProposedHeader>) returns (out: seq<ProposedHeader>)
      ensures out == Spec.Fitting(Model(), phs)
    {
      out := [];
      for i := 0 to |phs|
        invariant out == Spec.Fitting(Model(), phs[..i])
      {
        assert phs[..i + 1][..i] == phs[..i];
        var ph := phs[i];
        if ph.header.prevAppHash != rlc.prevFinAppStateHash {
          continue;
        }
        if ph.header.vals != rlc.curValSet {
          continue;
        }
        if ph.header.nextVals != rlc.prevFinNextValSet {
          continue;
        }
        out := out + [ph];
      }
      assert phs[..|phs|] == phs;
    }

    method Consider(phs: seq<ProposedHeader>)
      modifies this`requests
      ensures Model() == Spec.AskConsider(old(Model()), phs)
    {
      if |phs| > 0 {
        Request(Spec.Consider(rlc.h, rlc.r, phs, rlc.prevoteHashCh));
      }
    }

    method DecidePrecommit()
      modifies this`requests, rlc`asked
      ensures Model() == Spec.AskDecide(old(Model()))
    {
      Request(Spec.Decide(rlc.h, rlc.r, rlc.precommitHashCh));
      rlc.asked := true;
    }

    method StepFromVotes(vs: VoteSummary) returns (s: Spec.Step)
      requires vs.available > 0
      ensures s == Spec.StepFromVotes(vs)
    {
      var maj, min := ByzantineMajority(vs.available), ByzantineMinority(vs.available);
      if vs.precommits.total >= maj {
        if PowerFor(vs.precommits, vs.precommits.mostVoted) >= maj {
          return Spec.CommitWait;
        }
        return Spec.PrecommitDelay;
      }
      if vs.precommits.total >= min {
        return Spec.AwaitingPrecommits;
      }
      if vs.prevotes.total >= maj {
        if PowerFor(vs.prevotes, vs.prevotes.mostVoted) >= maj {
          return Spec.AwaitingPrecommits;
        }
        return Spec.PrevoteDelay;
      }
      return Spec.AwaitingProposal;
    }

    // ----- Entering rounds and committing -----

    method BeginCommit(v: View) returns (ok: bool)
      modifies this, rlc
      ensures (Model(), ok) == Spec.BeginCommit(old(Model()), v)
    {
      rlc.s := Spec.CommitWait;
      StartTimer(Spec.CommitWait);
      var header := KernelSpec.FindHeader(v.headers, v.summary.precommits.mostVoted);
      if header.None? {
        return false;
      }
      Request(Spec.Finalize(rlc.h, rlc.r, header.value));
      return true;
    }

    /** Takes up a step with the view of the entered round. */
    method TakeStep(curStep: Spec.Step, v: View)
      modifies this`requests, rlc`s, rlc`vrv, rlc`stepTimer
      ensures var l := old(Model()).(step := curStep, view := Some(v));
              Model() == if curStep.AwaitingProposal? then Spec.Start(l, curStep) else l
    {
      rlc.s := curStep;
      rlc.vrv := Some(v);
      if curStep.AwaitingProposal? {
        StartTimer(curStep);
      }
    }

    method BeginProposing(v: View)
      modifies this`requests, rlc`s, rlc`vrv, rlc`stepTimer
      ensures
        var l := old(Model());
        Model() == Spec.Start(Spec.AskConsider(l, Spec.Fitting(l, v.headers)).(step := Spec.AwaitingProposal, view := Some(v)),
                              Spec.AwaitingProposal)
    {
      var okPHs := RejectMismatchedProposedHeaders(v.headers);
      Consider(okPHs);
      TakeStep(Spec.AwaitingProposal, v);
    }

    method BeginPrecommitting(v: View)
      modifies this`requests, rlc`s, rlc`vrv, rlc`stepTimer, rlc`asked
      ensures Model() == Spec.AskDecide(old(Model())).(step := Spec.AwaitingPrecommits, view := Some(v))
    {
      DecidePrecommit();
      TakeStep(Spec.AwaitingPrecommits, v);
    }

    method BeginCommitting(v: View) returns (ok: bool)
      modifies this, rlc
      ensures
        var (l1, b) := Spec.BeginCommit(old(Model()), v);
        ok == b && Model() == if b then l1.(view := Some(v)) else l1
    {
      ok := BeginCommit(v);
      if ok {
        rlc.vrv := Some(v);
      }
    }

    method BeginRoundLive(v: View, resp: seq<Spec.Response>) returns (panicked: bool, ok: bool, rest: seq<Spec.Response>)
      modifies this, rlc
      ensures Reports(panicked, ok, rest, Spec.BeginRoundLive(old(Model()), v, resp), Model())
      decreases |resp|, 3
    {
      panicked, ok, rest := false, true, resp;
      if v.summary.available == 0 {
        panicked := true;
        return;
      }
      var curStep := StepFromVotes(v.summary);
      match curStep {
        case AwaitingProposal => BeginProposing(v);
        case AwaitingPrecommits => BeginPrecommitting(v);
        case CommitWait =>
          if v.summary.precommits.mostVoted == NIL_HASH {
            panicked, ok, rest := AdvanceRound(resp);
          } else {
            ok := BeginCommitting(v);
          }
        case _ => panicked := true;
      }
    }

    /** The mirror is ahead: it answered with a committed header to replay. */
    method CatchUp(header: Header)
      modifies this`requests, this`mode, rlc`proposalCh, rlc`prevoteHashCh, rlc`precommitHashCh
      ensures
        var l1 := old(Model()).(proposalCh := false, prevoteCh := false, precommitCh := false);
        Model() == Spec.Emit(l1, Spec.Finalize(l1.h, l1.r, header)).(mode := Spec.CatchingUp)
    {
      rlc.MarkCatchingUp();
      Request(Spec.Finalize(rlc.h, rlc.r, header));
      mode := Spec.CatchingUp;
    }

    method Advance(resp: seq<Spec.Response>) returns (panicked: bool, ok: bool, rest: seq<Spec.Response>)
      modifies this, rlc
      ensures Reports(panicked, ok, rest, Spec.Advance(old(Model()), resp), Model())
      decreases |resp|, 1
    {
      panicked, ok, rest := false, true, resp;
      if |resp| == 0 {
        mode, ok := Spec.Broken, false;
        return;
      }
      rest := resp[1..];
      match resp[0] {
        case Failed => mode, ok := Spec.Broken, false;
        case CaughtUp(header) => CatchUp(header);
        case Entered(content) =>
          var participating := IsParticipating();
          panicked, ok, rest := EnterWith(content.(h := rlc.h, r := rlc.r), participating, rest);
      }
    }

    /** The mirror answered with the view of the entered round. */
    method EnterWith(v: View, participating: bool, resp: seq<Spec.Response>)
        returns (panicked: bool, ok: bool, rest: seq<Spec.Response>)
      requires participating == Spec.Participating(Model())
      modifies this, rlc
      ensures Reports(panicked, ok, rest, Spec.EnterWith(old(Model()), v, resp), Model())
      decreases |resp|, 4
    {
      rlc.outgoingActionsCh, sent := participating, 0;
      rlc.lastDelivered, rlc.entered := v.version, v;
      panicked, ok, rest := BeginRoundLive(v, resp);
    }

    method ResetTo(h: nat, r: nat)
      modifies rlc
      ensures Model() == Spec.ResetRound(old(Model()), h, r)
    {
      rlc.Reset(h, r);
    }

    method Cycle()
      modifies rlc
      ensures Model() == Spec.CycleFinalization(old(Model()))
    {
      rlc.CycleFinalization();
    }

    method AdvanceRound(resp: seq<Spec.Response>) returns (panicked: bool, ok: bool, rest: seq<Spec.Response>)
      modifies this, rlc
      ensures Reports(panicked, ok, rest, Spec.AdvanceRound(old(Model()), resp), Model())
      decreases |resp|, 2
    {
      ResetTo(rlc.h, rlc.r + 1);
      panicked, ok, rest := Advance(resp);
    }

    method AdvanceHeight(resp: seq<Spec.Response>) returns (panicked: bool, ok: bool, rest: seq<Spec.Response>)
      modifies this, rlc
      ensures Reports(panicked, ok, rest, Spec.AdvanceHeight(old(Model()), resp), Model())
    {
      Cycle();
      ResetTo(rlc.h + 1, 0);
      panicked, ok, rest := Advance(resp);
    }

    /** The first entrance, at genesis. */
    method InitializeLive(content: View, resp: seq<Spec.Response>) returns (panicked: bool, ok: bool, rest: seq<Spec.Response>)
      modifies this, rlc
      ensures Reports(panicked, ok, rest, Spec.StartLive(old(Model()), content, resp), Model())
    {
      var participating := IsParticipating();
      var phs := RejectMismatchedProposedHeaders(content.headers);
      panicked, ok, rest := EnterWith(content.(h := rlc.h, r := rlc.r, headers := phs), participating, resp);
    }

    // ----- View updates -----

    method Committed(v: View, resp: seq<Spec.Response>) returns (panicked: bool, ok: bool, rest: seq<Spec.Response>)
      modifies this, rlc
      ensures Reports(panicked, ok, rest, Spec.Committed(old(Model()), v, resp), Model())
    {
      panicked, rest := false, resp;
      if v.summary.precommits.mostVoted == NIL_HASH {
        panicked, ok, rest := AdvanceRound(resp);
        return;
      }
      ok := BeginCommit(v);
    }

    /** A majority precommitted, but not for one target: wait a little and decide meanwhile. */
    method DelayPrecommits()
      modifies this`requests, rlc`s, rlc`stepTimer, rlc`asked
      ensures Model() == Spec.AskDecide(Spec.StartDelay(old(Model()), Spec.PrecommitDelay))
    {
      rlc.s := Spec.PrecommitDelay;
      StartTimer(Spec.PrecommitDelay);
      DecidePrecommit();
    }

    method MoveToPrecommits()
      modifies this`requests, rlc`s, rlc`asked
      ensures Model() == Spec.AskDecide(old(Model()).(step := Spec.AwaitingPrecommits))
    {
      rlc.s := Spec.AwaitingPrecommits;
      DecidePrecommit();
    }

    /** A majority prevoted while a proposal was awaited; the proposal timer is already cancelled. */
    method LeaveProposal(v: View)
      modifies this`requests, rlc`s, rlc`stepTimer
      ensures
        var l := old(Model());
        var phs := Spec.Fitting(l, v.headers);
        Model() ==
          if PowerFor(v.summary.prevotes, v.summary.prevotes.mostVoted) >= Spec.MajorityOf(v.summary) then
            Spec.Emit(l.(step := Spec.AwaitingPrecommits), Spec.Choose(l.h, l.r, phs, l.prevoteCh))
          else Spec.AskConsider(Spec.StartDelay(l, Spec.PrevoteDelay), phs)
    {
      var phs := RejectMismatchedProposedHeaders(v.headers);
      if PowerFor(v.summary.prevotes, v.summary.prevotes.mostVoted) >= Spec.MajorityOf(v.summary) {
        rlc.s := Spec.AwaitingPrecommits;
        Request(Spec.Choose(rlc.h, rlc.r, phs, rlc.prevoteHashCh));
      } else {
        rlc.s := Spec.PrevoteDelay;
        StartTimer(Spec.PrevoteDelay);
        Consider(phs);
      }
    }

    method ConsiderNewHeaders(v: View) returns (panicked: bool)
      modifies this`requests
      ensures panicked <==> old(Model()).view.None?
      ensures
        var l := old(Model());
        !panicked ==>
          Model() == if |v.headers| > |l.view.value.headers| && |Spec.Fitting(l, v.headers)| > |Spec.Fitting(l, l.view.value.headers)|
                     then Spec.AskConsider(l, Spec.Fitting(l, v.headers)) else l
    {
      panicked := rlc.vrv.None?;
      if panicked || |v.headers| <= |rlc.vrv.value.headers| {
        return;
      }
      var incoming := RejectMismatchedProposedHeaders(v.headers);
      var have := RejectMismatchedProposedHeaders(rlc.vrv.value.headers);
      if |incoming| <= |have| {
        return;
      }
      Consider(incoming);
    }

    method HandleProposalViewUpdate(v: View, resp: seq<Spec.Response>) returns (panicked: bool, ok: bool, rest: seq<Spec.Response>)
      modifies this, rlc
      ensures Reports(panicked, ok, rest, Spec.OnProposalView(old(Model()), v, resp), Model())
    {
      panicked, ok, rest := false, true, resp;
      var vs := v.summary;
      if vs.available == 0 {
        panicked := true;
        return;
      }
      var min, maj := ByzantineMinority(vs.available), Spec.MajorityOf(vs);
      if vs.precommits.total >= maj || vs.precommits.total >= min || vs.prevotes.total >= maj {
        panicked := CancelTimer();
        if panicked {
          return;
        }
        if vs.precommits.total >= maj {
          if PowerFor(vs.precommits, vs.precommits.mostVoted) >= maj {
            panicked, ok, rest := Committed(v, resp);
          } else {
            DelayPrecommits();
          }
        } else if vs.precommits.total >= min {
          MoveToPrecommits();
        } else {
          LeaveProposal(v);
        }
        return;
      }
      panicked := ConsiderNewHeaders(v);
    }

    method CancelTimerIn(s: Spec.Step) returns (panicked: bool)
      modifies rlc`stepTimer
      ensures panicked <==> Spec.StopIf(old(Model()), s).Panic?
      ensures !panicked ==> Model() == Spec.StopIf(old(Model()), s).value
    {
      panicked := false;
      if rlc.s == s {
        panicked := CancelTimer();
      }
    }

    method HandlePrevoteViewUpdate(v: View, resp: seq<Spec.Response>) returns (panicked: bool, ok: bool, rest: seq<Spec.Response>)
      modifies this, rlc
      ensures Reports(panicked, ok, rest, Spec.OnPrevoteView(old(Model()), v, resp), Model())
    {
      panicked, ok, rest := false, true, resp;
      var vs := v.summary;
      if vs.available == 0 {
        panicked := true;
        return;
      }
      var maj := ByzantineMajority(vs.available);
      if vs.precommits.total >= maj {
        panicked := CancelTimerIn(Spec.PrevoteDelay);
        if panicked {
          return;
        }
        if PowerFor(vs.precommits, vs.precommits.mostVoted) >= maj {
          panicked, ok, rest := Committed(v, resp);
          return;
        }
        DelayPrecommits();
        return;
      }
      if vs.prevotes.total >= maj {
        if PowerFor(vs.prevotes, vs.prevotes.mostVoted) >= maj {
          panicked := CancelTimerIn(Spec.PrevoteDelay);
          if panicked {
            return;
          }
          MoveToPrecommits();
          return;
        }
        if rlc.s.AwaitingPrevotes? {
          rlc.s := Spec.PrevoteDelay;
          StartTimer(Spec.PrevoteDelay);
        }
      }
    }

    method HandlePrecommitViewUpdate(v: View, resp: seq<Spec.Response>) returns (panicked: bool, ok: bool, rest: seq<Spec.Response>)
      modifies this, rlc
      ensures Reports(panicked, ok, rest, Spec.OnPrecommitView(old(Model()), v, resp), Model())
    {
      panicked, ok, rest := false, true, resp;
      var vs := v.summary;
      if vs.available == 0 {
        panicked := true;
        return;
      }
      var maj := ByzantineMajority(vs.available);
      if vs.precommits.total >= maj {
        if PowerFor(vs.precommits, vs.precommits.mostVoted) >= maj {
          if vs.precommits.mostVoted == NIL_HASH {
            panicked, ok, rest := AdvanceRound(resp);
            return;
          }
          panicked := CancelTimerIn(Spec.PrecommitDelay);
          if panicked {
            return;
          }
          ok := BeginCommit(v);
          return;
        }
        if vs.precommits.total == vs.available {
          panicked, ok, rest := AdvanceRound(resp);
          return;
        }
        if rlc.s.AwaitingPrecommits? {
          rlc.s := Spec.PrecommitDelay;
          StartTimer(Spec.PrecommitDelay);
        }
      }
    }

    method HandleCommitWaitViewUpdate(v: View, resp: seq<Spec.Response>) returns (panicked: bool, ok: bool, rest: seq<Spec.Response>)
      modifies this`requests
      ensures Reports(panicked, ok, rest, Spec.OnCommitWaitView(old(Model()), v, resp), Model())
    {
      panicked, ok, rest := false, true, resp;
      if !rlc.finalizeRespCh {
        return;
      }
      if rlc.vrv.None? {
        panicked := true;
        return;
      }
      var had := KernelSpec.FindHeader(rlc.vrv.value.headers, rlc.vrv.value.summary.precommits.mostVoted);
      if had.Some? {
        return;
      }
      var has := KernelSpec.FindHeader(v.headers, v.summary.precommits.mostVoted);
      if has.None? {
        return;
      }
      Request(Spec.Finalize(rlc.h, rlc.r, has.value));
    }

    method HandleJumpAhead(jump: View, resp: seq<Spec.Response>) returns (panicked: bool, ok: bool, rest: seq<Spec.Response>)
      modifies this, rlc
      ensures Reports(panicked, ok, rest, Spec.JumpAhead(old(Model()), jump, resp), Model())
    {
      panicked, ok, rest := true, true, resp;
      if jump.h != rlc.h {
        return;
      }
      if jump.r <= rlc.r {
        return;
      }
      panicked, ok, rest := AdvanceRound(resp);
    }

    method HandleView(v: View, resp: seq<Spec.Response>) returns (panicked: bool, ok: bool, rest: seq<Spec.Response>)
      modifies this, rlc
      ensures Reports(panicked, ok, rest, Spec.OnView(old(Model()), v, resp), Model())
    {
      match rlc.s {
        case AwaitingProposal => panicked, ok, rest := HandleProposalViewUpdate(v, resp);
        case AwaitingPrevotes => panicked, ok, rest := HandlePrevoteViewUpdate(v, resp);
        case PrevoteDelay => panicked, ok, rest := HandlePrevoteViewUpdate(v, resp);
        case AwaitingPrecommits => panicked, ok, rest := HandlePrecommitViewUpdate(v, resp);
        case PrecommitDelay => panicked, ok, rest := HandlePrecommitViewUpdate(v, resp);
        case CommitWait => panicked, ok, rest := HandleCommitWaitViewUpdate(v, resp);
        case AwaitingFinalization => panicked, ok, rest := HandleCommitWaitViewUpdate(v, resp);
      }
    }

    /** A newer view of the current round. */
    method HandleNewView(v: View, jump: Option<View>, resp: seq<Spec.Response>)
        returns (panicked: bool, ok: bool, rest: seq<Spec.Response>)
      modifies this, rlc
      ensures Reports(panicked, ok, rest, Spec.NewView(old(Model()), v, jump, resp), Model())
    {
      Deliver(v);
      panicked, ok, rest := HandleView(v, resp);
      if panicked || !mode.Live? {
        return;
      }
      panicked, ok, rest := FinishView(v, jump, rest);
    }

    ghost method Deliver(v: View)
      modifies rlc`lastDelivered
      ensures Model() == old(Model()).(lastDelivered := v.version)
    {
      rlc.lastDelivered := v.version;
    }

    method FinishView(v: View, jump: Option<View>, resp: seq<Spec.Response>)
        returns (panicked: bool, ok: bool, rest: seq<Spec.Response>)
      modifies this, rlc
      ensures Reports(panicked, ok, rest, Spec.AfterView(old(Model()), v, jump, resp), Model())
    {
      panicked, ok, rest := false, true, resp;
      KeepView(v);
      if jump.Some? {
        panicked, ok, rest := HandleJumpAhead(jump.value, rest);
      }
    }

    method KeepView(v: View)
      modifies rlc`vrv
      ensures Model() == Spec.KeepView(old(Model()), v)
    {
      if rlc.vrv.Some? && v.h == rlc.vrv.value.h && v.r == rlc.vrv.value.r {
        rlc.vrv := Some(v);
      }
    }

    method HandleViewUpdate(vrv: Option<View>, jump: Option<View>, resp: seq<Spec.Response>)
        returns (panicked: bool, ok: bool, rest: seq<Spec.Response>)
      modifies this, rlc
      ensures Reports(panicked, ok, rest, Spec.ViewUpdate(old(Model()), vrv, jump, resp), Model())
    {
      panicked, ok, rest := false, true, resp;
      if vrv.None? {
        if jump.None? {
          panicked := true;
        } else {
          panicked, ok, rest := HandleJumpAhead(jump.value, resp);
        }
        return;
      }
      if vrv.value.h != rlc.h || vrv.value.r != rlc.r {
        return;
      }
      if rlc.vrv.None? {
        panicked := true;
        return;
      }
      if vrv.value.version <= rlc.vrv.value.version {
        mode := Spec.Terminated;
        return;
      }
      panicked, ok, rest := HandleNewView(vrv.value, jump, resp);
    }

    // ----- Other events -----

    method SendAction() returns (panicked: bool)
      modifies this`sent
      ensures panicked <==> Spec.SendAction(old(Model())).Panic?
      ensures !panicked ==> Model() == Spec.SendAction(old(Model())).value
    {
      panicked := !rlc.outgoingActionsCh || sent >= 3;
      if !panicked {
        sent := sent + 1;
      }
    }

    method RecordProposedHeader(saved: bool, resp: seq<Spec.Response>) returns (panicked: bool, ok: bool, rest: seq<Spec.Response>)
      modifies this, rlc
      ensures Reports(panicked, ok, rest, Spec.OnProposal(old(Model()), saved, resp), Model())
    {
      panicked, ok, rest := false, saved, resp;
      if signer.None? {
        panicked := true;
        return;
      }
      if !saved {
        return;
      }
      panicked := SendAction();
      if !panicked {
        rlc.proposalCh := false;
      }
    }

    /** Saves and sends a vote if this validator takes part. */
    method SendVote(saved: bool) returns (panicked: bool, ok: bool)
      modifies this`sent
      ensures !ok <==> Spec.Participating(old(Model())) && !saved
      ensures ok ==> (panicked <==> Spec.SendVote(old(Model())).Panic?)
      ensures ok && !panicked ==> Model() == Spec.SendVote(old(Model())).value
      ensures !ok ==> !panicked && Model() == old(Model())
    {
      panicked, ok := false, true;
      var participating := IsParticipating();
      if participating {
        if !saved {
          ok := false;
          return;
        }
        panicked := SendAction();
      }
    }

    method RecordPrevote(hash: Option<Hash>, saved: bool, resp: seq<Spec.Response>) returns (panicked: bool, ok: bool, rest: seq<Spec.Response>)
      modifies this, rlc
      ensures Reports(panicked, ok, rest, Spec.OnPrevote(old(Model()), hash, saved, resp), Model())
    {
      panicked, ok, rest := false, false, resp;
      if hash.None? {
        return;
      }
      panicked, ok := SendVote(saved);
      if panicked || !ok {
        return;
      }
      panicked := PrevoteSent();
    }

    method PrevoteSent() returns (panicked: bool)
      modifies rlc`s, rlc`stepTimer, rlc`prevoteHashCh
      ensures panicked <==> Spec.PrevoteDone(old(Model())).Panic?
      ensures !panicked ==> Model() == Spec.PrevoteDone(old(Model())).value
    {
      panicked := false;
      if rlc.s.AwaitingProposal? {
        rlc.s := Spec.AwaitingPrevotes;
        panicked := CancelTimer();
      }
      rlc.prevoteHashCh := false;
    }

    method RecordPrecommit(hash: Option<Hash>, saved: bool, resp: seq<Spec.Response>) returns (panicked: bool, ok: bool, rest: seq<Spec.Response>)
      modifies this, rlc
      ensures Reports(panicked, ok, rest, Spec.OnPrecommit(old(Model()), hash, saved, resp), Model())
    {
      panicked, ok, rest := false, false, resp;
      if hash.None? {
        return;
      }
      panicked, ok := SendVote(saved);
      if !panicked && ok {
        rlc.precommitHashCh := false;
      }
    }

    method TakeFinalization(fin: Spec.FinResponse)
      modifies rlc`finalizedValSet, rlc`finalizedAppStateHash, rlc`finalizedBlockHash, rlc`finalizeRespCh
      ensures Model() == old(Model()).(finVals := fin.vals, finAppHash := fin.appHash, finBlockHash := fin.blockHash, finalizeCh := false)
    {
      rlc.finalizedValSet := fin.vals;
      rlc.finalizedAppStateHash := fin.appHash;
      rlc.finalizedBlockHash := fin.blockHash;
      rlc.finalizeRespCh := false;
    }

    method HandleFinalization(fin: Spec.FinResponse, storeUp: bool, resp: seq<Spec.Response>)
        returns (panicked: bool, ok: bool, rest: seq<Spec.Response>)
      modifies this, rlc, fStore
      ensures Reports(panicked, ok, rest, Spec.OnFinalization(old(Model()), fin, storeUp, resp), Model())
    {
      panicked, ok, rest := false, true, resp;
      if |fin.vals.keys| == 0 {
        panicked := true;
        return;
      }
      TakeFinalization(fin);
      if fin.h != rlc.h || fin.r != rlc.r {
        panicked := true;
        return;
      }
      if !storeUp {
        ok := false;
        return;
      }
      ok := fStore.SaveFinalization(rlc.h, rlc.r, fin.blockHash, rlc.finalizedValSet, fin.appHash);
      if ok && rlc.s.AwaitingFinalization? {
        panicked, ok, rest := AdvanceHeight(resp);
      }
    }

    method CommitWaitOver(resp: seq<Spec.Response>) returns (panicked: bool, ok: bool, rest: seq<Spec.Response>)
      modifies this, rlc
      ensures Reports(panicked, ok, rest, Spec.CommitWaitOver(old(Model()), resp), Model())
    {
      panicked, ok, rest := false, true, resp;
      if |rlc.finalizedValSet.keys| == 0 {
        rlc.s := Spec.AwaitingFinalization;
        return;
      }
      panicked, ok, rest := AdvanceHeight(resp);
    }

    method HandleTimerElapsed(resp: seq<Spec.Response>) returns (panicked: bool, ok: bool, rest: seq<Spec.Response>)
      modifies this, rlc
      ensures Reports(panicked, ok, rest, Spec.OnTimer(old(Model()), resp), Model())
    {
      panicked, ok, rest := false, true, resp;
      match rlc.s {
        case AwaitingProposal =>
          if rlc.vrv.None? {
            panicked := true;
            return;
          }
          var phs := RejectMismatchedProposedHeaders(rlc.vrv.value.headers);
          Request(Spec.Choose(rlc.h, rlc.r, phs, rlc.prevoteHashCh));
          rlc.s := Spec.AwaitingPrevotes;
          panicked := CancelTimer();
        case PrevoteDelay =>
          DecidePrecommit();
          rlc.s := Spec.AwaitingPrecommits;
          panicked := CancelTimer();
        case PrecommitDelay =>
          panicked := CancelTimer();
          if !panicked {
            panicked, ok, rest := AdvanceRound(resp);
          }
        case CommitWait =>
          panicked := CancelTimer();
          if !panicked {
            panicked, ok, rest := CommitWaitOver(resp);
          }
        case _ => panicked := true;
      }
    }

    method HandleHeightCommitted(resp: seq<Spec.Response>) returns (panicked: bool, ok: bool, rest: seq<Spec.Response>)
      modifies this, rlc
      ensures Reports(panicked, ok, rest, Spec.OnHeightCommitted(old(Model()), resp), Model())
    {
      panicked, ok, rest := false, true, resp;
      rlc.heightCommitted := false;
      rlc.stepTimer := None;
      if rlc.s.AwaitingFinalization? {
        return;
      }
      if !rlc.s.CommitWait? {
        panicked := true;
        return;
      }
      panicked, ok, rest := CommitWaitOver(resp);
    }

    method HandleBlockDataArrival(ah: nat, ar: nat, someNeeded: bool, resp: seq<Spec.Response>)
        returns (panicked: bool, ok: bool, rest: seq<Spec.Response>)
      modifies this`requests
      ensures Reports(panicked, ok, rest, Spec.OnDataArrived(old(Model()), ah, ar, someNeeded, resp), Model())
    {
      panicked, ok, rest := false, true, resp;
      if !rlc.prevoteHashCh {
        return;
      }
      if ah != rlc.h || ar != rlc.r {
        return;
      }
      if rlc.vrv.None? {
        panicked := true;
        return;
      }
      var okPHs := RejectMismatchedProposedHeaders(rlc.vrv.value.headers);
      if |okPHs| == 0 || !someNeeded {
        return;
      }
      Consider(okPHs);
    }

    /** One iteration of the event loop, for an event that is ready. It keeps the invariants of every run
      and moves height, round and step forward. */
    method HandleLiveEvent(e: Spec.Event, resp: seq<Spec.Response>) returns (panicked: bool)
      modifies this, rlc, fStore
      ensures panicked <==> Spec.Iterate(old(Model()), e, resp).Panic?
      ensures !panicked ==> Model() == Spec.Iterate(old(Model()), e, resp).value
      ensures !panicked ==> Kept(old(Model()), e, Model())
    {
      var ok, rest;
      match e {
        case ViewIn(vrv, jump) =>
          panicked, ok, rest := HandleViewUpdate(vrv, jump, resp);
          ok := true;
        case ProposalIn(saved) => panicked, ok, rest := RecordProposedHeader(saved, resp);
        case PrevoteIn(hash, saved) => panicked, ok, rest := RecordPrevote(hash, saved, resp);
        case PrecommitIn(hash, saved) => panicked, ok, rest := RecordPrecommit(hash, saved, resp);
        case FinalizationIn(fin, saved) => panicked, ok, rest := HandleFinalization(fin, saved, resp);
        case TimerElapsed => panicked, ok, rest := HandleTimerElapsed(resp);
        case HeightCommitted => panicked, ok, rest := HandleHeightCommitted(resp);
        case DataArrived(ah, ar, someNeeded) => panicked, ok, rest := HandleBlockDataArrival(ah, ar, someNeeded, resp);
      }
      if !panicked && !ok && mode.Live? {
        mode := Spec.Halted;
      }
      IterateKeeps(old(Model()), e, resp);
    }
  }
}
