/** What every live event of the state machine keeps. */
module RoundInv {
  import opened Options
  import opened Quorum
  import opened Votes
  import opened Views
  import KernelSpec
  import opened RoundSpec

  // ----- Invariants -----

  /** A timer is outstanding exactly in the timed steps, and it is the timer of this step and round. */
  ghost predicate TimerOk(l: Life) {
    l.timer == if Timed(l.step) then Some(Timer(l.step, l.h, l.r)) else None
  }

  /** How many own actions were recorded in this round: each closes the channel of its answer. */
  function Recorded(l: Life): nat {
    One(!l.proposalCh) + One(!l.prevoteCh) + One(!l.precommitCh)
  }

  /** The entrance's channel holds exactly the recorded actions of a participant. */
  ghost predicate ChannelsOk(l: Life) {
    && (l.step.AwaitingProposal? ==> l.prevoteCh)
    && (!l.asked ==> l.precommitCh)
    && (Rank(l.step) <= 3 ==> !l.asked)
    && l.actionsCh == Participating(l)
    && l.sent == if Participating(l) then Recorded(l) else 0
  }

  /** The committed header is missing from the view with which the round was entered. */
  predicate LacksHeader(v: View) {
    && v.summary.available > 0
    && StepFromVotes(v.summary).CommitWait?
    && v.summary.precommits.mostVoted != NIL_HASH
    && KernelSpec.FindHeader(v.headers, v.summary.precommits.mostVoted).None?
  }

  /** The kept view is one of the current round, except (`blind`) after an entrance without the header,
    when it is one of an earlier round. */
  ghost predicate ViewAt(view: Option<View>, blind: bool, h: nat, r: nat) {
    view.Some? && if blind then HRLess(view.value.h, view.value.r, h, r) else Matches(view.value, h, r)
  }

  ghost predicate ViewOk(l: Life) {
    && ViewAt(l.view, LacksHeader(l.entered), l.h, l.r)
    && (LacksHeader(l.entered) ==> Rank(l.step) >= 6)
  }

  /** ... and it is the latest one delivered. */
  ghost predicate LatestAt(view: Option<View>, blind: bool, delivered: nat) {
    !blind && view.Some? ==> view.value.version == delivered
  }

  ghost predicate Latest(l: Life) {
    LatestAt(l.view, LacksHeader(l.entered), l.lastDelivered)
  }

  function RoundOf(q: Request): (nat, nat) {
    if q.StartTimer? then (q.timer.h, q.timer.r) else (q.h, q.r)
  }

  /** Requests carry channels that exist, and timers start when none is outstanding. */
  ghost predicate RequestOk(q: Request) {
    match q
    case Consider(_, _, _, open) => open
    case Choose(_, _, _, open) => open
    case Decide(_, _, open) => open
    case Finalize(_, _, _) => true
    case StartTimer(_, free) => free
  }

  ghost predicate LogAt(l: Life, i: nat)
    requires i < |l.log|
  {
    var q := l.log[i];
    && RequestOk(q)
    && HRLeq(RoundOf(q).0, RoundOf(q).1, l.h, l.r)
    && (q.Decide? && RoundOf(q) == (l.h, l.r) ==> l.asked)
    && (q.Finalize? && RoundOf(q) == (l.h, l.r) && l.mode.Live? ==> Rank(l.step) >= 6)
  }

  ghost predicate LogOk(l: Life) {
    && (forall i :: 0 <= i < |l.log| ==> LogAt(l, i))
    && (forall i, j :: 0 <= i < j < |l.log| && l.log[i].Decide? && l.log[j].Decide? ==>
          HRLess(l.log[i].h, l.log[i].r, l.log[j].h, l.log[j].r))
  }

  /** The validators finalized at a height, with genesis standing in for earlier heights. */
  function ValsAt(l: Life, h: int): ValSet {
    if h >= 0 && h in l.store then l.store[h].vals else l.genesis
  }

  function AppHashAt(l: Life, h: int): string {
    if h >= 0 && h in l.store then l.store[h].appHash else l.genesisAppHash
  }

  /** The two-height pipeline: what was finalized at h-1 is proposed as next, what was finalized at h-2
    is in force. Exactly the heights before this one are finalized, and this one if its response came. */
  ghost predicate PipelineOk(l: Life) {
    && l.prevFinNextVals == ValsAt(l, l.h - 1)
    && l.curVals == ValsAt(l, l.h - 2)
    && l.prevVals == ValsAt(l, l.h - 3)
    && l.prevFinAppHash == AppHashAt(l, l.h - 1)
    && (l.h > 0 && l.h - 1 in l.store ==> l.prevBlockHash == l.store[l.h - 1].blockHash)
    && l.initialHeight <= l.h
    && (forall k :: k in l.store ==> l.initialHeight <= k <= l.h)
    && (forall k :: l.initialHeight <= k < l.h ==> k in l.store)
    && (l.mode.Live? ==>
          if l.h in l.store then
            && l.finVals == l.store[l.h].vals && l.finVals.keys != []
            && l.finAppHash == l.store[l.h].appHash && l.finBlockHash == l.store[l.h].blockHash
          else l.finVals.keys == [])
  }

  /** Everything but Latest. */
  ghost predicate Sound(l: Life) {
    && LogOk(l) && PipelineOk(l)
    && (l.mode.Live? ==> TimerOk(l) && ChannelsOk(l) && ViewOk(l))
  }

  ghost predicate Inv(l: Life) {
    Sound(l) && (l.mode.Live? ==> Latest(l))
  }

  /** What no event changes or takes back. */
  ghost predicate Extends(l: Life, m: Life) {
    && m.genesis == l.genesis && m.genesisAppHash == l.genesisAppHash && m.initialHeight == l.initialHeight
    && l.log <= m.log
    && forall k :: k in l.store ==> k in m.store && m.store[k] == l.store[k]
  }

  /** (H, R, Step) does not decrease, and nothing is taken back. */
  ghost predicate Progress(l: Life, m: Life) {
    && (HRLess(l.h, l.r, m.h, m.r) || (m.h == l.h && m.r == l.r && Rank(l.step) <= Rank(m.step)))
    && Extends(l, m)
  }

  lemma ProgressTrans(l1: Life, l2: Life, l3: Life)
    requires Progress(l1, l2) && Progress(l2, l3)
    ensures Progress(l1, l3)
  {
  }

  // ----- Entering a round -----

  /** All requests so far are of earlier rounds. */
  ghost predicate LogBefore(l: Life) {
    && (forall i :: 0 <= i < |l.log| ==> RequestOk(l.log[i]) && HRLess(RoundOf(l.log[i]).0, RoundOf(l.log[i]).1, l.h, l.r))
    && (forall i, j :: 0 <= i < j < |l.log| && l.log[i].Decide? && l.log[j].Decide? ==>
          HRLess(l.log[i].h, l.log[i].r, l.log[j].h, l.log[j].r))
  }

  /** A round that was reset and not yet entered. */
  ghost predicate Blank(l: Life) {
    && l.mode.Live? && LogBefore(l) && PipelineOk(l)
    && l.timer.None? && l.proposalCh && l.prevoteCh && l.precommitCh && !l.asked
    && (l.view.Some? ==> HRLess(l.view.value.h, l.view.value.r, l.h, l.r))
  }

  /** What entering a round from a blank one leaves. A failed first entrance has no view. */
  ghost predicate EntryOk(l: Life, d: Done) {
    && HRLeq(l.h, l.r, d.l.h, d.l.r) && Extends(l, d.l)
    && (d.ok || l.view.Some? ==> Inv(d.l))
  }

  /** Requests of a round just entered. */
  ghost predicate FirstRequests(m: Life, extra: seq<Request>) {
    && (forall q :: q in extra ==> RequestOk(q) && RoundOf(q) == (m.h, m.r)
                                   && (q.Decide? ==> m.asked) && (q.Finalize? && m.mode.Live? ==> Rank(m.step) >= 6))
    && (forall i, j :: 0 <= i < j < |extra| ==> !(extra[i].Decide? && extra[j].Decide?))
  }

  lemma LogEntered(l: Life, m: Life, extra: seq<Request>)
    requires LogBefore(l) && m.log == l.log + extra && m.h == l.h && m.r == l.r
    requires FirstRequests(m, extra)
    ensures LogOk(m)
  {
    var n := |l.log|;
    forall i | 0 <= i < |m.log| ensures LogAt(m, i) {
      if i >= n { assert m.log[i] in extra; }
    }
    forall i, j | 0 <= i < j < |m.log| && m.log[i].Decide? && m.log[j].Decide?
      ensures HRLess(m.log[i].h, m.log[i].r, m.log[j].h, m.log[j].r)
    {
      if j >= n {
        assert m.log[j] in extra;
      }
    }
  }

  lemma LogSame(l: Life, m: Life)
    requires LogOk(l) && m.log == l.log && m.h == l.h && m.r == l.r && m.step == l.step && m.asked == l.asked
    requires m.mode.Live? ==> l.mode.Live?
    ensures LogOk(m)
  {
    forall i | 0 <= i < |m.log| ensures LogAt(m, i) { assert LogAt(l, i); }
  }

  // ----- Staying in a round -----

  /** `m` differs from `l` only in what may change within a round. */
  ghost predicate SameRound(l: Life, m: Life) {
    m == l.(step := m.step, timer := m.timer, heightCommittedCh := m.heightCommittedCh, sent := m.sent,
            proposalCh := m.proposalCh, prevoteCh := m.prevoteCh, precommitCh := m.precommitCh,
            finalizeCh := m.finalizeCh, log := m.log, asked := m.asked)
  }

  ghost predicate MoreRequests(l: Life, m: Life, extra: seq<Request>) {
    && m.log == l.log + extra
    && FirstRequests(m, extra)
    && (l.asked ==> m.asked && forall q :: q in extra ==> !q.Decide?)
  }

  lemma LogExtended(l: Life, m: Life, extra: seq<Request>)
    requires LogOk(l) && l.mode.Live? && SameRound(l, m) && Rank(l.step) <= Rank(m.step)
    requires MoreRequests(l, m, extra)
    ensures LogOk(m)
  {
    var n := |l.log|;
    forall i | 0 <= i < |m.log| ensures LogAt(m, i) {
      if i < n { assert LogAt(l, i); } else { assert m.log[i] in extra; }
    }
    forall i, j | 0 <= i < j < |m.log| && m.log[i].Decide? && m.log[j].Decide?
      ensures HRLess(m.log[i].h, m.log[i].r, m.log[j].h, m.log[j].r)
    {
      if j >= n {
        assert m.log[j] in extra;
        if i < n { assert LogAt(l, i); }
      }
    }
  }

  /** The pipeline does not depend on the round's own state. */
  lemma PipelineKept(l: Life, m: Life)
    requires PipelineOk(l) && l.mode.Live?
    requires m.h == l.h && m.genesis == l.genesis && m.genesisAppHash == l.genesisAppHash && m.initialHeight == l.initialHeight
    requires m.store == l.store && m.finVals == l.finVals && m.finAppHash == l.finAppHash
    requires m.curVals == l.curVals && m.prevVals == l.prevVals
    requires m.prevFinNextVals == l.prevFinNextVals && m.prevFinAppHash == l.prevFinAppHash
    requires m.prevBlockHash == l.prevBlockHash && m.finBlockHash == l.finBlockHash
    ensures PipelineOk(m)
  {
  }

  lemma Stays(l: Life, m: Life, extra: seq<Request>)
    requires Sound(l) && l.mode.Live? && SameRound(l, m) && Rank(l.step) <= Rank(m.step)
    requires MoreRequests(l, m, extra) && TimerOk(m) && ChannelsOk(m)
    ensures Sound(m) && Progress(l, m)
  {
    LogExtended(l, m, extra);
    PipelineKept(l, m);
  }
}
