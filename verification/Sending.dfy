/** What a validator records as its own is sent to the mirror: once, and nothing else. */
module Sending {
  import opened Options
  import opened Quorum
  import opened Votes
  import opened Views
  import opened RoundSpec
  import opened RoundInv
  import opened RoundRuns
  import opened Entrances

  /** The event is an own action of a participant, and its record could be saved. */
  predicate OwnAction(l: Life, e: Event) {
    Participating(l)
    && match e
       case ProposalIn(saved) => saved
       case PrevoteIn(hash, saved) => hash.Some? && saved
       case PrecommitIn(hash, saved) => hash.Some? && saved
       case _ => false
  }

  predicate InNewRound(l: Life, m: Life) {
    m.h != l.h || m.r != l.r
  }

  lemma ProposalSends(l: Life, saved: bool, resp: seq<Response>)
    requires Inv(l) && l.mode.Live? && OnProposal(l, saved, resp).Ok?
    ensures var m := OnProposal(l, saved, resp).value.l; m.sent == l.sent + One(OwnAction(l, ProposalIn(saved)))
    ensures !InNewRound(l, OnProposal(l, saved, resp).value.l)
  {
  }

  lemma SendVoteSends(l: Life)
    requires l.actionsCh == Participating(l) && SendVote(l).Ok?
    ensures SendVote(l).value == l.(sent := l.sent + One(Participating(l)))
  {
  }

  lemma PrevoteDoneSends(l: Life)
    requires PrevoteDone(l).Ok?
    ensures PrevoteDone(l).value.sent == l.sent
  {
    if l.step.AwaitingProposal? {
      assert PrevoteDone(l).value == l.(step := AwaitingPrevotes, timer := None, prevoteCh := false);
    }
  }

  lemma PrevoteSends(l: Life, hash: Option<Hash>, saved: bool, resp: seq<Response>)
    requires Inv(l) && l.mode.Live? && OnPrevote(l, hash, saved, resp).Ok?
    ensures var m := OnPrevote(l, hash, saved, resp).value.l; m.sent == l.sent + One(OwnAction(l, PrevoteIn(hash, saved)))
  {
    if hash.Some? && !(Participating(l) && !saved) {
      SendVoteSends(l);
      PrevoteDoneSends(SendVote(l).value);
    }
  }

  lemma PrecommitSends(l: Life, hash: Option<Hash>, saved: bool, resp: seq<Response>)
    requires Inv(l) && l.mode.Live? && OnPrecommit(l, hash, saved, resp).Ok?
    ensures var m := OnPrecommit(l, hash, saved, resp).value.l; m.sent == l.sent + One(OwnAction(l, PrecommitIn(hash, saved)))
  {
    if hash.Some? && !(Participating(l) && !saved) {
      SendVoteSends(l);
    }
  }

  lemma ViewSends(l: Life, vrv: Option<View>, jump: Option<View>, resp: seq<Response>)
    requires l.mode.Live? && ViewUpdate(l, vrv, jump, resp).Ok? && ViewUpdate(l, vrv, jump, resp).value.l.mode.Live?
    ensures var m := ViewUpdate(l, vrv, jump, resp).value.l; m.sent == if InNewRound(l, m) then 0 else l.sent
  {
    if vrv.Some? && Matches(vrv.value, l.h, l.r) {
      KeepViewStays(l.(lastDelivered := vrv.value.version), vrv.value);
      ViewUpdateSettles(l, vrv, jump, resp);
    } else if vrv.None? {
      ViewUpdateSettles(l, vrv, jump, resp);
    }
  }

  /** A handled event that leaves the state machine live puts exactly the own action it records in the
    channel; a round just entered has an empty one. */
  lemma EventSends(l: Life, e: Event, resp: seq<Response>)
    requires Inv(l) && l.mode.Live? && Handle(l, e, resp).Ok? && Handle(l, e, resp).value.l.mode.Live?
    ensures
      var m := Handle(l, e, resp).value.l;
      m.sent == if InNewRound(l, m) then 0 else l.sent + One(OwnAction(l, e))
  {
    match e {
      case ViewIn(vrv, jump) => ViewSends(l, vrv, jump, resp);
      case ProposalIn(saved) => ProposalSends(l, saved, resp);
      case PrevoteIn(hash, saved) =>
        PrevoteSends(l, hash, saved, resp);
        PrevoteRemains(l, hash, saved, resp);
      case PrecommitIn(hash, saved) =>
        PrecommitSends(l, hash, saved, resp);
        PrecommitRemains(l, hash, saved, resp);
      case _ => EventSettles(l, e, resp);
    }
  }

  /** A vote of the strategy: a participant's is sent once it is saved, a bystander's is not. */
  lemma VotesAreSent(c: Config, ts: seq<Turn>, kind: Kind, hash: Hash, resp: seq<Response>)
    requires Starts(c) && RunOf(c, ts).Ok?
    requires Enabled(RunOf(c, ts).value, if kind.Prevote? then PrevoteIn(Some(hash), true) else PrecommitIn(Some(hash), true))
    ensures
      var l := RunOf(c, ts).value;
      var o := Handle(l, if kind.Prevote? then PrevoteIn(Some(hash), true) else PrecommitIn(Some(hash), true), resp);
      && o.Ok? && o.value.ok
      && o.value.l.sent == l.sent + One(Participating(l))
      && !(if kind.Prevote? then o.value.l.prevoteCh else o.value.l.precommitCh)
  {
    RunKeepsRound(c, ts);
    var e := if kind.Prevote? then PrevoteIn(Some(hash), true) else PrecommitIn(Some(hash), true);
    AnswersNeverBlock(c, ts, e, resp);
    if kind.Prevote? {
      PrevoteSends(RunOf(c, ts).value, Some(hash), true, resp);
    } else {
      PrecommitSends(RunOf(c, ts).value, Some(hash), true, resp);
    }
  }

  /** The own actions recorded since the round was entered. */
  ghost function ActionsSince(c: Config, ts: seq<Turn>): nat
    requires Starts(c) && RunOf(c, ts).Ok?
  {
    if |ts| == 0 then 0
    else
      var front, t := ts[..|ts| - 1], ts[|ts| - 1];
      var l, m := RunOf(c, front).value, RunOf(c, ts).value;
      if InNewRound(l, m) then 0
      else ActionsSince(c, front) + One(Enabled(l, t.event) && OwnAction(l, t.event))
  }

  lemma {:induction false} StartsEmpty(c: Config)
    requires Starts(c) && Begin(c).value.l.mode.Live?
    ensures Begin(c).value.l.sent == 0
  {
    var l := AtGenesis(c.signer, c.initialHeight, c.vals, c.appHash, c.blockHash);
    var v := c.content.(h := l.h, r := l.r, headers := Fitting(l, c.content.headers));
    var l1 := l.(actionsCh := Participating(l), sent := 0, lastDelivered := v.version, entered := v);
    assert Begin(c) == BeginRoundLive(l1, v, c.resp);
    EntersOrPasses(l1, v, c.resp);
    if NilMajority(v) {
      AdvanceArrives(ResetRound(l1, l1.h, l1.r + 1), c.resp);
    }
  }

  /** Over every run, the channel of the current entrance holds as many actions as the validator recorded
    since: every recorded vote and proposal was sent, each once. */
  lemma {:induction false} EveryActionSent(c: Config, ts: seq<Turn>)
    requires Starts(c) && RunOf(c, ts).Ok? && RunOf(c, ts).value.mode.Live?
    ensures RunOf(c, ts).value.sent == ActionsSince(c, ts)
  {
    if |ts| == 0 {
      StartsEmpty(c);
    } else {
      var front, t := ts[..|ts| - 1], ts[|ts| - 1];
      var l := RunOf(c, front).value;
      RunKeepsRound(c, front);
      if Enabled(l, t.event) {
        EveryActionSent(c, front);
        EventSends(l, t.event, t.resp);
      } else {
        EveryActionSent(c, front);
      }
    }
  }
}
