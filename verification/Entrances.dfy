/** Where a handler leaves the state machine: in its round, or in one it entered as the mirror answered. */
module Entrances {
  import opened Options
  import opened Quorum
  import opened Votes
  import opened Views
  import KernelSpec
  import opened RoundSpec
  import opened RoundInv

  predicate NilMajority(v: View) {
    var t := v.summary.precommits;
    && v.summary.available > 0 && t.mostVoted == NIL_HASH
    && t.total >= ByzantineMajority(v.summary.available)
    && PowerFor(t, NIL_HASH) >= ByzantineMajority(v.summary.available)
  }

  /** Handling the view makes the state machine leave its round: for a nil majority while the round is not
    committing, and, once precommits are awaited, for everybody's precommits without a majority. */
  predicate EndsRound(step: Step, v: View) {
    var t := v.summary.precommits;
    || (Rank(step) <= 5 && NilMajority(v))
    || ((step.AwaitingPrecommits? || step.PrecommitDelay?) && v.summary.available > 0 && t.total == v.summary.available
        && PowerFor(t, t.mostVoted) < ByzantineMajority(v.summary.available))
  }

  /** The round in which the state machine ends up when it enters round `r` and the mirror answers `resp`:
    a round entered with a nil majority is left at once. */
  function EnteredRound(r: nat, resp: seq<Response>): nat
    decreases |resp|
  {
    if |resp| > 0 && resp[0].Entered? && NilMajority(resp[0].content) then EnteredRound(r + 1, resp[1..]) else r
  }

  lemma {:induction false} AdvanceReaches(l: Life, resp: seq<Response>)
    requires AdvanceRound(l, resp).Ok? && AdvanceRound(l, resp).value.l.mode.Live?
    ensures var d := AdvanceRound(l, resp).value; d.l.h == l.h && d.l.r == EnteredRound(l.r + 1, resp)
    decreases |resp|
  {
    var l1 := ResetRound(l, l.h, l.r + 1);
    assert AdvanceRound(l, resp) == Advance(l1, resp);
    if |resp| > 0 && resp[0].Entered? {
      var v := resp[0].content.(h := l1.h, r := l1.r);
      assert Advance(l1, resp) == EnterWith(l1, v, resp[1..]);
      var l2 := l1.(actionsCh := Participating(l1), sent := 0, lastDelivered := v.version, entered := v);
      assert EnterWith(l1, v, resp[1..]) == BeginRoundLive(l2, v, resp[1..]);
      EntersOrPasses(l2, v, resp[1..]);
      if NilMajority(v) {
        AdvanceReaches(l2, resp[1..]);
      }
    }
  }

  /** In the same round, with nothing delivered in between. */
  predicate SameSpot(l1: Life, l2: Life) {
    && l1.h == l2.h && l1.r == l2.r && l1.mode == l2.mode
    && l1.lastDelivered == l2.lastDelivered && l1.entered == l2.entered
  }

  /** ... and the same view kept. */
  predicate SamePlace(l1: Life, l2: Life) {
    SameSpot(l1, l2) && l1.view == l2.view
  }

  /** No round was entered. */
  predicate Remains(d: Done, l: Life, resp: seq<Response>) {
    SamePlace(d.l, l) && d.rest == resp
  }

  /** ... and nothing was sent. */
  predicate Untouched(d: Done, l: Life, resp: seq<Response>) {
    Remains(d, l, resp) && d.l.sent == l.sent
  }

  /** Every answer can still come. */
  predicate AllOpen(l: Life) {
    l.proposalCh && l.prevoteCh && l.precommitCh && l.finalizeCh && l.heightCommittedCh && l.actionsCh == Participating(l)
  }

  /** The round was entered and `v` kept, unless it lacks the header of a committed block; if precommits are
    awaited, the strategy was asked for its own. */
  predicate InRound(d: Done, l: Life, v: View, resp: seq<Response>) {
    && SameSpot(d.l, l) && d.rest == resp && d.l.sent == l.sent && (AllOpen(l) ==> AllOpen(d.l))
    && (LacksHeader(v) || d.l.view == Some(v))
    && (d.l.step.AwaitingPrecommits? ==> d.l.asked)
  }

  lemma CommitStays(l: Life, v: View)
    ensures SamePlace(BeginCommit(l, v).0, l)
  {
  }

  lemma NilMajorityPasses(l: Life, v: View, resp: seq<Response>)
    requires NilMajority(v)
    ensures BeginRoundLive(l, v, resp) == AdvanceRound(l, resp)
  {
    assert StepFromVotes(v.summary).CommitWait?;
  }

  lemma CommitEnters(l: Life, v: View, resp: seq<Response>)
    requires v.summary.available > 0 && StepFromVotes(v.summary).CommitWait? && !NilMajority(v)
    ensures BeginRoundLive(l, v, resp).Ok? && InRound(BeginRoundLive(l, v, resp).value, l, v, resp)
  {
    CommitStays(l, v);
    var (l1, ok) := BeginCommit(l, v);
    assert BeginRoundLive(l, v, resp) == Ok(Done(if ok then l1.(view := Some(v)) else l1, ok, resp));
  }

  lemma ProposalEnters(l: Life, v: View, resp: seq<Response>)
    requires v.summary.available > 0 && StepFromVotes(v.summary).AwaitingProposal?
    ensures BeginRoundLive(l, v, resp).Ok? && InRound(BeginRoundLive(l, v, resp).value, l, v, resp)
  {
    var l1 := AskConsider(l, Fitting(l, v.headers)).(step := AwaitingProposal, view := Some(v));
    assert BeginRoundLive(l, v, resp)
        == Ok(Done(Start(l1, AwaitingProposal), true, resp));
  }

  lemma DecisionEnters(l: Life, v: View, resp: seq<Response>)
    requires v.summary.available > 0 && StepFromVotes(v.summary).AwaitingPrecommits?
    ensures BeginRoundLive(l, v, resp).Ok? && InRound(BeginRoundLive(l, v, resp).value, l, v, resp)
  {
  }

  lemma EntersLive(l: Life, v: View, resp: seq<Response>)
    requires BeginRoundLive(l, v, resp).Ok?
    ensures v.summary.available > 0
    ensures var step := StepFromVotes(v.summary); step.AwaitingProposal? || step.AwaitingPrecommits? || step.CommitWait?
  {
  }

  /** A round entered with a nil majority is passed over; any other is the one the state machine is in. */
  lemma EntersOrPasses(l: Life, v: View, resp: seq<Response>)
    requires BeginRoundLive(l, v, resp).Ok?
    ensures NilMajority(v) ==> BeginRoundLive(l, v, resp) == AdvanceRound(l, resp)
    ensures !NilMajority(v) ==> InRound(BeginRoundLive(l, v, resp).value, l, v, resp)
  {
    EntersLive(l, v, resp);
    var step := StepFromVotes(v.summary);
    if NilMajority(v) {
      NilMajorityPasses(l, v, resp);
    } else if step.CommitWait? {
      CommitEnters(l, v, resp);
    } else if step.AwaitingProposal? {
      ProposalEnters(l, v, resp);
    } else {
      DecisionEnters(l, v, resp);
    }
  }

  /** `d` was reached by entering the rounds from `r` on, as the first of the responses say. */
  predicate Arrives(d: Done, resp: seq<Response>, h: nat, r: nat) {
    var n := |resp| - |d.rest|;
    && n > 0 && d.rest == resp[n..]
    && resp[n - 1].Entered? && d.l.lastDelivered == resp[n - 1].content.version
    && d.l.h == h && d.l.r == r + n - 1 && d.l.sent == 0 && AllOpen(d.l)
    && d.l.entered == resp[n - 1].content.(h := d.l.h, r := d.l.r)
    && (LacksHeader(d.l.entered) || d.l.view == Some(d.l.entered))
    && (d.l.step.AwaitingPrecommits? ==> d.l.asked)
  }

  /** The round was just reset. */
  predicate Fresh(l: Life) {
    l.proposalCh && l.prevoteCh && l.precommitCh && l.finalizeCh && l.heightCommittedCh
  }

  /** A state machine that is live after entering a round has the last view it was given. */
  lemma {:induction false} AdvanceArrives(l: Life, resp: seq<Response>)
    requires Advance(l, resp).Ok? && Advance(l, resp).value.l.mode.Live? && l.mode.Live? && Fresh(l)
    ensures Arrives(Advance(l, resp).value, resp, l.h, l.r)
    decreases |resp|
  {
    if |resp| > 0 && resp[0].Entered? {
      EnterArrives(l, resp[0].content.(h := l.h, r := l.r), resp);
    }
  }

  lemma {:induction false} EnterArrives(l: Life, v: View, resp: seq<Response>)
    requires |resp| > 0 && resp[0].Entered? && v == resp[0].content.(h := l.h, r := l.r) && l.mode.Live? && Fresh(l)
    requires EnterWith(l, v, resp[1..]).Ok? && EnterWith(l, v, resp[1..]).value.l.mode.Live?
    ensures Arrives(EnterWith(l, v, resp[1..]).value, resp, l.h, l.r)
    decreases |resp|, 0
  {
    var l1 := l.(actionsCh := Participating(l), sent := 0, lastDelivered := v.version, entered := v);
    assert EnterWith(l, v, resp[1..]) == BeginRoundLive(l1, v, resp[1..]);
    EntersOrPasses(l1, v, resp[1..]);
    if NilMajority(v) {
      var l2 := ResetRound(l1, l1.h, l1.r + 1);
      assert AdvanceRound(l1, resp[1..]) == Advance(l2, resp[1..]);
      AdvanceArrives(l2, resp[1..]);
      ArrivesLater(Advance(l2, resp[1..]).value, resp, l.h, l.r);
    }
  }

  lemma ArrivesLater(d: Done, resp: seq<Response>, h: nat, r: nat)
    requires |resp| > 0 && Arrives(d, resp[1..], h, r + 1)
    ensures Arrives(d, resp, h, r)
  {
    var n := |resp| - |d.rest|;
    assert resp[1..][n - 1..] == resp[n..];
  }

  /** Entering never leads to another height, nor back. */
  lemma {:induction false} AdvanceForward(l: Life, resp: seq<Response>)
    requires Advance(l, resp).Ok?
    ensures Advance(l, resp).value.l.h == l.h && Advance(l, resp).value.l.r >= l.r
    decreases |resp|
  {
    if |resp| > 0 && resp[0].Entered? {
      var v := resp[0].content.(h := l.h, r := l.r);
      var l1 := l.(actionsCh := Participating(l), sent := 0, lastDelivered := v.version, entered := v);
      assert EnterWith(l, v, resp[1..]) == BeginRoundLive(l1, v, resp[1..]);
      EntersOrPasses(l1, v, resp[1..]);
      if NilMajority(v) {
        AdvanceForward(ResetRound(l1, l1.h, l1.r + 1), resp[1..]);
      }
    }
  }

  lemma LeavesForward(o: Res<Done>, l: Life, resp: seq<Response>)
    requires o.Ok? && Leaves(o, l, resp)
    ensures o.value.l.h == l.h && o.value.l.r > l.r
  {
    var l1 := if o == AdvanceRound(l, resp) then l else l.(timer := None);
    AdvanceForward(ResetRound(l1, l1.h, l1.r + 1), resp);
  }

  /** Where the state machine is when a view of its round has been handled. */
  lemma ViewReaches(l: Life, v: View, resp: seq<Response>)
    requires OnView(l, v, resp).Ok? && OnView(l, v, resp).value.l.mode.Live?
    ensures
      var d := OnView(l, v, resp).value;
      && d.l.h == l.h
      && d.l.r == if EndsRound(l.step, v) then EnteredRound(l.r + 1, resp) else l.r
  {
    LeavesOrStays(l, v, resp);
    if EndsRound(l.step, v) {
      var l1 := if OnView(l, v, resp) == AdvanceRound(l, resp) then l else l.(timer := None);
      AdvanceReaches(l1, resp);
    }
  }

  /** The handler leaves the round, having stopped the timer or not. */
  predicate Leaves(o: Res<Done>, l: Life, resp: seq<Response>) {
    o == AdvanceRound(l, resp) || o == AdvanceRound(l.(timer := None), resp)
  }

  predicate LeavesIff(leaves: bool, o: Res<Done>, l: Life, resp: seq<Response>)
    requires o.Ok?
  {
    if leaves then Leaves(o, l, resp) else Untouched(o.value, l, resp)
  }

  lemma CommittedLeavesIff(l: Life, v: View, resp: seq<Response>)
    requires Committed(l, v, resp).Ok?
    ensures LeavesIff(v.summary.precommits.mostVoted == NIL_HASH, Committed(l, v, resp), l, resp)
  {
    CommitStays(l, v);
  }

  lemma PrevoteMajorityDoesNotLeave(l: Life, v: View, resp: seq<Response>)
    requires OnProposalView(l, v, resp).Ok?
    requires v.summary.precommits.total < ByzantineMinority(v.summary.available)
    requires v.summary.prevotes.total >= ByzantineMajority(v.summary.available)
    requires PowerFor(v.summary.prevotes, v.summary.prevotes.mostVoted) >= ByzantineMajority(v.summary.available)
    ensures Untouched(OnProposalView(l, v, resp).value, l, resp)
  {
  }

  lemma SplitPrevotesDoNotLeave(l: Life, v: View, resp: seq<Response>)
    requires OnProposalView(l, v, resp).Ok?
    requires v.summary.precommits.total < ByzantineMinority(v.summary.available)
    requires v.summary.prevotes.total >= ByzantineMajority(v.summary.available)
    requires PowerFor(v.summary.prevotes, v.summary.prevotes.mostVoted) < ByzantineMajority(v.summary.available)
    ensures Untouched(OnProposalView(l, v, resp).value, l, resp)
  {
    var l1 := Stop(l).value;
    assert OnProposalView(l, v, resp).value.l
        == AskConsider(StartDelay(l1, PrevoteDelay), Fitting(l1, v.headers));
  }

  lemma HeadersDoNotLeave(l: Life, v: View, resp: seq<Response>)
    requires OnProposalView(l, v, resp).Ok?
    requires v.summary.precommits.total < ByzantineMinority(v.summary.available)
    requires v.summary.prevotes.total < ByzantineMajority(v.summary.available)
    ensures Untouched(OnProposalView(l, v, resp).value, l, resp)
  {
    var l1 := OnProposalView(l, v, resp).value.l;
    assert l1 == l || l1 == AskConsider(l, Fitting(l, v.headers));
  }

  lemma FewPrecommitsDoNotLeave(l: Life, v: View, resp: seq<Response>)
    requires OnProposalView(l, v, resp).Ok?
    requires ByzantineMinority(v.summary.available) <= v.summary.precommits.total < ByzantineMajority(v.summary.available)
    ensures Untouched(OnProposalView(l, v, resp).value, l, resp)
  {
  }

  lemma ProposalLeavesIff(l: Life, v: View, resp: seq<Response>)
    requires l.step.AwaitingProposal? && OnProposalView(l, v, resp).Ok?
    ensures LeavesIff(EndsRound(l.step, v), OnProposalView(l, v, resp), l, resp)
  {
    var vs := v.summary;
    if vs.precommits.total < ByzantineMinority(vs.available) {
      if vs.prevotes.total < ByzantineMajority(vs.available) {
        HeadersDoNotLeave(l, v, resp);
      } else if PowerFor(vs.prevotes, vs.prevotes.mostVoted) < ByzantineMajority(vs.available) {
        SplitPrevotesDoNotLeave(l, v, resp);
      } else {
        PrevoteMajorityDoesNotLeave(l, v, resp);
      }
    } else if vs.precommits.total < ByzantineMajority(vs.available) {
      FewPrecommitsDoNotLeave(l, v, resp);
    } else if PowerFor(vs.precommits, vs.precommits.mostVoted) >= ByzantineMajority(vs.available) {
      var l1 := Stop(l).value;
      assert OnProposalView(l, v, resp) == Committed(l1, v, resp);
      CommittedLeavesIff(l1, v, resp);
    }
  }

  lemma AskStays(l: Life)
    ensures SamePlace(AskDecide(l.(step := AwaitingPrecommits)), l)
  {
  }

  lemma StopIfStays(l: Life, s: Step)
    requires StopIf(l, s).Ok?
    ensures SamePlace(StopIf(l, s).value, l)
  {
    var l1 := StopIf(l, s).value;
    assert l1 == l || l1 == l.(timer := None);
  }

  lemma PrevoteMajorityStays(l: Life, v: View, resp: seq<Response>)
    requires OnPrevoteView(l, v, resp).Ok?
    requires v.summary.precommits.total < ByzantineMajority(v.summary.available)
    requires PowerFor(v.summary.prevotes, v.summary.prevotes.mostVoted) >= ByzantineMajority(v.summary.available)
    ensures Untouched(OnPrevoteView(l, v, resp).value, l, resp)
  {
    if v.summary.prevotes.total >= ByzantineMajority(v.summary.available) {
      var l1 := StopIf(l, PrevoteDelay).value;
      StopIfStays(l, PrevoteDelay);
      AskStays(l1);
      assert OnPrevoteView(l, v, resp).value == Done(AskDecide(l1.(step := AwaitingPrecommits)), true, resp);
    }
  }

  lemma PrevoteViewStays(l: Life, v: View, resp: seq<Response>)
    requires OnPrevoteView(l, v, resp).Ok?
    requires v.summary.precommits.total < ByzantineMajority(v.summary.available)
    ensures Untouched(OnPrevoteView(l, v, resp).value, l, resp)
  {
    if PowerFor(v.summary.prevotes, v.summary.prevotes.mostVoted) >= ByzantineMajority(v.summary.available) {
      PrevoteMajorityStays(l, v, resp);
    } else {
      var l1 := OnPrevoteView(l, v, resp).value.l;
      assert l1 == l || l1 == StartDelay(l, PrevoteDelay);
    }
  }

  lemma PrevoteLeavesIff(l: Life, v: View, resp: seq<Response>)
    requires (l.step.AwaitingPrevotes? || l.step.PrevoteDelay?) && OnPrevoteView(l, v, resp).Ok?
    ensures LeavesIff(EndsRound(l.step, v), OnPrevoteView(l, v, resp), l, resp)
  {
    var vs := v.summary;
    if vs.precommits.total < ByzantineMajority(vs.available) {
      PrevoteViewStays(l, v, resp);
    } else if PowerFor(vs.precommits, vs.precommits.mostVoted) >= ByzantineMajority(vs.available) {
      var l1 := StopIf(l, PrevoteDelay).value;
      assert OnPrevoteView(l, v, resp) == Committed(l1, v, resp);
      CommittedLeavesIff(l1, v, resp);
    }
  }

  lemma PrecommitLeavesIff(l: Life, v: View, resp: seq<Response>)
    requires (l.step.AwaitingPrecommits? || l.step.PrecommitDelay?) && OnPrecommitView(l, v, resp).Ok?
    ensures LeavesIff(EndsRound(l.step, v), OnPrecommitView(l, v, resp), l, resp)
  {
    var vs := v.summary;
    if vs.precommits.total >= ByzantineMajority(vs.available)
       && PowerFor(vs.precommits, vs.precommits.mostVoted) >= ByzantineMajority(vs.available)
       && vs.precommits.mostVoted != NIL_HASH {
      CommittedLeavesIff(StopIf(l, PrecommitDelay).value, v, resp);
    }
  }

  lemma LeavesOrStays(l: Life, v: View, resp: seq<Response>)
    requires OnView(l, v, resp).Ok?
    ensures LeavesIff(EndsRound(l.step, v), OnView(l, v, resp), l, resp)
  {
    match l.step
    case AwaitingProposal => ProposalLeavesIff(l, v, resp);
    case AwaitingPrevotes | PrevoteDelay => PrevoteLeavesIff(l, v, resp);
    case AwaitingPrecommits | PrecommitDelay => PrecommitLeavesIff(l, v, resp);
    case _ =>
  }

  // ----- Whole events -----

  /** The first round an event can make the state machine enter. */
  function NextRound(l: Life, e: Event): (nat, nat) {
    if e.FinalizationIn? || e.HeightCommitted? || (e.TimerElapsed? && l.step.CommitWait?) then (l.h + 1, 0)
    else (l.h, l.r + 1)
  }

  /** A live state machine is in the round it was in, or in one it entered. */
  predicate Settles(d: Done, l: Life, resp: seq<Response>, h: nat, r: nat) {
    d.l.mode.Live? ==> Untouched(d, l, resp) || Arrives(d, resp, h, r)
  }

  /** ... having sent an action or not. */
  predicate Lands(d: Done, l: Life, resp: seq<Response>, h: nat, r: nat) {
    d.l.mode.Live? ==> Remains(d, l, resp) || Arrives(d, resp, h, r)
  }

  lemma LeavesArrives(o: Res<Done>, l: Life, resp: seq<Response>)
    requires o.Ok? && l.mode.Live? && Leaves(o, l, resp)
    ensures o.value.l.mode.Live? ==> Arrives(o.value, resp, l.h, l.r + 1)
  {
    if o.value.l.mode.Live? {
      var l1 := if o == AdvanceRound(l, resp) then l else l.(timer := None);
      assert AdvanceRound(l1, resp) == Advance(ResetRound(l1, l1.h, l1.r + 1), resp);
      AdvanceArrives(ResetRound(l1, l1.h, l1.r + 1), resp);
    }
  }

  lemma JumpSettles(l: Life, jump: View, resp: seq<Response>)
    requires l.mode.Live? && JumpAhead(l, jump, resp).Ok?
    ensures JumpAhead(l, jump, resp).value.l.mode.Live? ==> Arrives(JumpAhead(l, jump, resp).value, resp, l.h, l.r + 1)
  {
    LeavesArrives(JumpAhead(l, jump, resp), l, resp);
  }

  /** Entering some rounds and then further ones. */
  lemma ArrivesThen(l1: Life, d1: Done, d2: Done, resp: seq<Response>, h: nat, r: nat)
    requires Arrives(d1, resp, h, r) && l1.h == d1.l.h && l1.r == d1.l.r && Arrives(d2, d1.rest, l1.h, l1.r + 1)
    ensures Arrives(d2, resp, h, r)
  {
    var n1, n2 := |resp| - |d1.rest|, |d1.rest| - |d2.rest|;
    assert resp[n1..][n2..] == resp[n1 + n2..];
    assert d1.rest[n2 - 1] == resp[n1 + n2 - 1];
  }

  lemma ViewSettles(l: Life, v: View, resp: seq<Response>)
    requires l.mode.Live? && OnView(l, v, resp).Ok?
    ensures Settles(OnView(l, v, resp).value, l, resp, l.h, l.r + 1)
  {
    LeavesOrStays(l, v, resp);
    if EndsRound(l.step, v) {
      LeavesArrives(OnView(l, v, resp), l, resp);
    }
  }

  /** Some rounds may have been entered before the jump. */
  lemma JumpThen(l: Life, d: Done, l1: Life, jump: View, resp: seq<Response>)
    requires l1.mode.Live? && SameSpot(l1, d.l) && Settles(d, l, resp, l.h, l.r + 1) && JumpAhead(l1, jump, d.rest).Ok?
    ensures JumpAhead(l1, jump, d.rest).value.l.mode.Live? ==> Arrives(JumpAhead(l1, jump, d.rest).value, resp, l.h, l.r + 1)
  {
    var d2 := JumpAhead(l1, jump, d.rest).value;
    JumpSettles(l1, jump, d.rest);
    if d2.l.mode.Live? && Arrives(d, resp, l.h, l.r + 1) {
      ArrivesThen(l1, d, d2, resp, l.h, l.r + 1);
    }
  }

  lemma KeepViewStays(l: Life, v: View)
    ensures SameSpot(KeepView(l, v), l) && KeepView(l, v).step == l.step && KeepView(l, v).asked == l.asked
    ensures KeepView(l, v).sent == l.sent
    ensures KeepView(l, v).view == if l.view.Some? && Matches(l.view.value, v.h, v.r) then Some(v) else l.view
  {
  }

  lemma KeepViewSame(l1: Life, l2: Life, v: View)
    requires SamePlace(l1, l2)
    ensures SamePlace(KeepView(l1, v), KeepView(l2, v))
  {
    KeepViewStays(l1, v);
    KeepViewStays(l2, v);
  }

  lemma KeepViewOpen(l: Life, v: View)
    ensures AllOpen(KeepView(l, v)) <==> AllOpen(l)
  {
  }

  lemma KeepViewArrived(d: Done, v: View, resp: seq<Response>, h: nat, r: nat)
    requires Arrives(d, resp, h, r) && HRLess(v.h, v.r, h, r)
    ensures Arrives(d.(l := KeepView(d.l, v)), resp, h, r)
  {
    KeepViewStays(d.l, v);
    KeepViewOpen(d.l, v);
    if !LacksHeader(d.l.entered) {
      assert KeepView(d.l, v) == d.l;
    }
  }

  lemma KeptSettles(l: Life, d: Done, v: View, resp: seq<Response>)
    requires d.l.mode.Live? && Settles(d, l, resp, l.h, l.r + 1) && Matches(v, l.h, l.r)
    ensures Settles(d.(l := KeepView(d.l, v)), KeepView(l, v), resp, l.h, l.r + 1)
  {
    if Remains(d, l, resp) {
      KeepViewSame(d.l, l, v);
    } else {
      KeepViewArrived(d, v, resp, l.h, l.r + 1);
    }
  }

  lemma JumpAfterView(l: Life, d: Done, v: View, jump: View, resp: seq<Response>)
    requires d.l.mode.Live? && Settles(d, l, resp, l.h, l.r + 1) && JumpAhead(KeepView(d.l, v), jump, d.rest).Ok?
    ensures
      var d2 := JumpAhead(KeepView(d.l, v), jump, d.rest).value;
      d2.l.mode.Live? ==> Arrives(d2, resp, l.h, l.r + 1)
  {
    KeepViewStays(d.l, v);
    JumpThen(l, d, KeepView(d.l, v), jump, resp);
  }

  lemma AfterViewSettles(l: Life, d: Done, v: View, jump: Option<View>, resp: seq<Response>)
    requires d.l.mode.Live? && Settles(d, l, resp, l.h, l.r + 1) && AfterView(d.l, v, jump, d.rest).Ok?
    requires Matches(v, l.h, l.r)
    ensures Settles(AfterView(d.l, v, jump, d.rest).value, KeepView(l, v), resp, l.h, l.r + 1)
  {
    if jump.Some? {
      JumpAfterView(l, d, v, jump.value, resp);
    } else {
      KeptSettles(l, d, v, resp);
      SettlesOk(d.(l := KeepView(d.l, v)), KeepView(l, v), resp, l.h, l.r + 1);
    }
  }

  /** Whether the handler reported success makes no difference to the place. */
  lemma SettlesOk(d: Done, l: Life, resp: seq<Response>, h: nat, r: nat)
    requires Settles(d, l, resp, h, r)
    ensures Settles(Done(d.l, true, d.rest), l, resp, h, r)
  {
  }

  lemma NewViewSettles(l: Life, v: View, jump: Option<View>, resp: seq<Response>)
    requires l.mode.Live? && NewView(l, v, jump, resp).Ok? && Matches(v, l.h, l.r)
    ensures Settles(NewView(l, v, jump, resp).value, KeepView(l.(lastDelivered := v.version), v), resp, l.h, l.r + 1)
  {
    var l0 := l.(lastDelivered := v.version);
    ViewSettles(l0, v, resp);
    var d := OnView(l0, v, resp).value;
    if d.l.mode.Live? {
      AfterViewSettles(l0, d, v, jump, resp);
    }
  }

  lemma HeightSettles(l: Life, m: Life, resp: seq<Response>)
    requires m.mode.Live? && m.h == l.h && AdvanceHeight(m, resp).Ok?
    ensures AdvanceHeight(m, resp).value.l.mode.Live? ==> Arrives(AdvanceHeight(m, resp).value, resp, l.h + 1, 0)
    ensures AdvanceHeight(m, resp).value.l.h == l.h + 1
  {
    AdvanceForward(ResetRound(CycleFinalization(m), m.h + 1, 0), resp);
    if AdvanceHeight(m, resp).value.l.mode.Live? {
      AdvanceArrives(ResetRound(CycleFinalization(m), m.h + 1, 0), resp);
    }
  }

  lemma FinalizationSettles(l: Life, fin: FinResponse, saved: bool, resp: seq<Response>)
    requires l.mode.Live? && OnFinalization(l, fin, saved, resp).Ok?
    ensures Settles(OnFinalization(l, fin, saved, resp).value, l, resp, l.h + 1, 0)
  {
    if l.step.AwaitingFinalization? && saved && l.h !in l.store {
      var l1 := l.(finVals := fin.vals, finAppHash := fin.appHash, finBlockHash := fin.blockHash, finalizeCh := false,
                   store := l.store[l.h := Finalization(l.r, fin.blockHash, fin.vals, fin.appHash)]);
      HeightSettles(l, l1, resp);
    }
  }

  lemma CommitWaitOverSettles(l: Life, m: Life, resp: seq<Response>)
    requires l.mode.Live? && m == l.(timer := None, heightCommittedCh := m.heightCommittedCh) && CommitWaitOver(m, resp).Ok?
    ensures Settles(CommitWaitOver(m, resp).value, l, resp, l.h + 1, 0)
  {
    if l.finVals.keys != [] {
      HeightSettles(l, m, resp);
    }
  }

  lemma DelaySettles(l: Life, resp: seq<Response>)
    requires l.mode.Live? && l.step.PrecommitDelay? && OnTimer(l, resp).Ok?
    ensures Settles(OnTimer(l, resp).value, l, resp, l.h, l.r + 1)
  {
    LeavesArrives(OnTimer(l, resp), l, resp);
  }

  lemma TimerRemains(l: Life, resp: seq<Response>)
    requires l.step.AwaitingProposal? || l.step.PrevoteDelay?
    requires OnTimer(l, resp).Ok?
    ensures Untouched(OnTimer(l, resp).value, l, resp)
  {
  }

  lemma TimerSettles(l: Life, resp: seq<Response>)
    requires l.mode.Live? && OnTimer(l, resp).Ok?
    ensures Settles(OnTimer(l, resp).value, l, resp, NextRound(l, TimerElapsed).0, NextRound(l, TimerElapsed).1)
  {
    match l.step {
      case CommitWait => CommitWaitOverSettles(l, l.(timer := None), resp);
      case PrecommitDelay => DelaySettles(l, resp);
      case _ => TimerRemains(l, resp);
    }
  }

  lemma ProposalRemains(l: Life, saved: bool, resp: seq<Response>)
    requires OnProposal(l, saved, resp).Ok?
    ensures Remains(OnProposal(l, saved, resp).value, l, resp)
  {
  }

  lemma SendVoteStays(l: Life)
    requires SendVote(l).Ok?
    ensures SamePlace(SendVote(l).value, l)
  {
  }

  lemma PrevoteDoneStays(l: Life)
    requires PrevoteDone(l).Ok?
    ensures SamePlace(PrevoteDone(l).value, l)
  {
    if l.step.AwaitingProposal? {
      assert PrevoteDone(l).value == l.(step := AwaitingPrevotes, timer := None, prevoteCh := false);
    }
  }

  lemma PrevoteRemains(l: Life, hash: Option<Hash>, saved: bool, resp: seq<Response>)
    requires OnPrevote(l, hash, saved, resp).Ok?
    ensures Remains(OnPrevote(l, hash, saved, resp).value, l, resp)
  {
    if hash.Some? && !(Participating(l) && !saved) {
      SendVoteStays(l);
      PrevoteDoneStays(SendVote(l).value);
    }
  }

  lemma PrecommitRemains(l: Life, hash: Option<Hash>, saved: bool, resp: seq<Response>)
    requires OnPrecommit(l, hash, saved, resp).Ok?
    ensures Remains(OnPrecommit(l, hash, saved, resp).value, l, resp)
  {
  }

  lemma DataRemains(l: Life, ah: nat, ar: nat, someNeeded: bool, resp: seq<Response>)
    requires OnDataArrived(l, ah, ar, someNeeded, resp).Ok?
    ensures Untouched(OnDataArrived(l, ah, ar, someNeeded, resp).value, l, resp)
  {
  }

  /** What an event other than a view makes of the place of the state machine. */
  lemma EventSettles(l: Life, e: Event, resp: seq<Response>)
    requires l.mode.Live? && Handle(l, e, resp).Ok? && !e.ViewIn?
    ensures Lands(Handle(l, e, resp).value, l, resp, NextRound(l, e).0, NextRound(l, e).1)
    ensures !e.ProposalIn? && !e.PrevoteIn? && !e.PrecommitIn? ==>
              Settles(Handle(l, e, resp).value, l, resp, NextRound(l, e).0, NextRound(l, e).1)
  {
    match e {
      case FinalizationIn(fin, saved) => FinalizationSettles(l, fin, saved, resp);
      case TimerElapsed => TimerSettles(l, resp);
      case HeightCommitted =>
        if l.step.CommitWait? { CommitWaitOverSettles(l, l.(heightCommittedCh := false, timer := None), resp); }
      case ProposalIn(saved) => ProposalRemains(l, saved, resp);
      case PrevoteIn(hash, saved) => PrevoteRemains(l, hash, saved, resp);
      case PrecommitIn(hash, saved) => PrecommitRemains(l, hash, saved, resp);
      case DataArrived(ah, ar, someNeeded) => DataRemains(l, ah, ar, someNeeded, resp);
    }
  }

  /** A view of its round that the state machine does not hold yet, or a jump alone. */
  lemma ViewUpdateSettles(l: Life, vrv: Option<View>, jump: Option<View>, resp: seq<Response>)
    requires l.mode.Live? && ViewUpdate(l, vrv, jump, resp).Ok? && (vrv.Some? ==> Matches(vrv.value, l.h, l.r))
    ensures
      var seen := if vrv.Some? then KeepView(l.(lastDelivered := vrv.value.version), vrv.value) else l;
      Settles(ViewUpdate(l, vrv, jump, resp).value, seen, resp, l.h, l.r + 1)
  {
    match vrv {
      case None => JumpSettles(l, jump.value, resp);
      case Some(v) =>
        if v.version > l.view.value.version { NewViewSettles(l, v, jump, resp); }
    }
  }
}
