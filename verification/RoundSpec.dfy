/** The consensus state machine as a function of its round lifecycle: what each live event does. */
module RoundSpec {
  import opened Options
  import opened Quorum
  import opened Votes
  import opened Views
  import KernelSpec

  // ----- Steps -----

  datatype Step =
    | AwaitingProposal | AwaitingPrevotes | PrevoteDelay
    | AwaitingPrecommits | PrecommitDelay | CommitWait | AwaitingFinalization

  function Rank(s: Step): nat {
    match s
    case AwaitingProposal => 1
    case AwaitingPrevotes => 2
    case PrevoteDelay => 3
    case AwaitingPrecommits => 4
    case PrecommitDelay => 5
    case CommitWait => 6
    case AwaitingFinalization => 7
  }

  predicate Timed(s: Step) {
    s.AwaitingProposal? || s.PrevoteDelay? || s.PrecommitDelay? || s.CommitWait?
  }

  /** The majority of the available power; zero when there is none, for which the engine panics. */
  function MajorityOf(vs: VoteSummary): nat {
    if vs.available == 0 then 0 else ByzantineMajority(vs.available)
  }

  function StepFromVotes(vs: VoteSummary): Step
    requires vs.available > 0
  {
    var maj, min := ByzantineMajority(vs.available), ByzantineMinority(vs.available);
    if vs.precommits.total >= maj then
      if PowerFor(vs.precommits, vs.precommits.mostVoted) >= maj then CommitWait else PrecommitDelay
    else if vs.precommits.total >= min then AwaitingPrecommits
    else if vs.prevotes.total >= maj then
      if PowerFor(vs.prevotes, vs.prevotes.mostVoted) >= maj then AwaitingPrecommits else PrevoteDelay
    else AwaitingProposal
  }

  // ----- State -----

  datatype Timer = Timer(step: Step, h: nat, r: nat)

  /** What the state machine asked of others, in order. `open` tells whether the channel for the answer
    existed; `free` whether no other timer was outstanding. */
  datatype Request =
    | Consider(h: nat, r: nat, phs: seq<ProposedHeader>, open: bool)
    | Choose(h: nat, r: nat, phs: seq<ProposedHeader>, open: bool)
    | Decide(h: nat, r: nat, open: bool)
    | Finalize(h: nat, r: nat, header: Header)
    | StartTimer(timer: Timer, free: bool)

  datatype Finalization = Finalization(r: nat, blockHash: string, vals: ValSet, appHash: string)

  /** `Broken`: a store failed or the context was cancelled while entering a round. */
  datatype Mode = Live | CatchingUp | Halted | Terminated | Broken

  /** The round lifecycle, with the finalization store. `sent` counts the actions put in the channel of
    this entrance; `log`, `asked` (for the precommit decision of this round), `lastDelivered` and `entered` (the view
    with which the round was entered) are history. */
  datatype Life = Life(
    mode: Mode, signer: Option<Key>, genesis: ValSet, genesisAppHash: string, initialHeight: nat,
    h: nat, r: nat, step: Step, timer: Option<Timer>, heightCommittedCh: bool,
    curVals: ValSet, prevVals: ValSet, prevFinNextVals: ValSet, prevFinAppHash: string, prevBlockHash: string,
    view: Option<View>,
    actionsCh: bool, sent: nat,
    proposalCh: bool, prevoteCh: bool, precommitCh: bool, finalizeCh: bool,
    finVals: ValSet, finAppHash: string, finBlockHash: string,
    store: map<nat, Finalization>,
    log: seq<Request>, asked: bool, lastDelivered: nat, entered: View)

  const NO_VALS := ValSet([], [])

  /** What the mirror answers to a round entrance: the content of the entered round's view, a committed
    header, or nothing because something failed. */
  datatype Response = Entered(content: View) | CaughtUp(header: Header) | Failed

  /** A result, or a panic. */
  datatype Res<+T> = Ok(value: T) | Panic {
    predicate IsFailure() { Panic? }
    function PropagateFailure<U>(): Res<U> requires IsFailure() { Panic }
    function Extract(): T requires !IsFailure() { value }
  }

  /** The outcome of a handler, and the responses left. */
  datatype Done = Done(l: Life, ok: bool, rest: seq<Response>)

  function Emit(l: Life, q: Request): Life {
    l.(log := l.log + [q])
  }

  function Start(l: Life, s: Step): Life {
    Emit(l.(timer := Some(Timer(s, l.h, l.r))), StartTimer(Timer(s, l.h, l.r), l.timer.None?))
  }

  /** Cancelling when there is no timer calls a nil function. */
  function Stop(l: Life): Res<Life> {
    if l.timer.None? then Panic else Ok(l.(timer := None))
  }

  function ResetRound(l: Life, h: nat, r: nat): Life {
    l.(h := h, r := r, timer := None,
       proposalCh := true, prevoteCh := true, precommitCh := true, finalizeCh := true, heightCommittedCh := true,
       asked := false)
  }

  function CycleFinalization(l: Life): Life {
    l.(prevFinNextVals := l.finVals, prevVals := l.curVals, curVals := l.prevFinNextVals, finVals := NO_VALS,
       prevFinAppHash := l.finAppHash, finAppHash := "",
       prevBlockHash := l.finBlockHash, finBlockHash := "")
  }

  predicate Participating(l: Life) {
    l.signer.Some? && l.signer.value in l.curVals.keys
  }

  /** Does the header match what this height must look like? */
  predicate Fits(l: Life, ph: ProposedHeader) {
    && ph.header.prevAppHash == l.prevFinAppHash
    && ph.header.vals == l.curVals
    && ph.header.nextVals == l.prevFinNextVals
  }

  /** The proposed headers that fit, in order. */
  function Fitting(l: Life, phs: seq<ProposedHeader>): seq<ProposedHeader> {
    if |phs| == 0 then []
    else Fitting(l, phs[..|phs| - 1]) + if Fits(l, phs[|phs| - 1]) then [phs[|phs| - 1]] else []
  }

  function AskConsider(l: Life, phs: seq<ProposedHeader>): Life {
    if |phs| > 0 then Emit(l, Consider(l.h, l.r, phs, l.prevoteCh)) else l
  }

  function AskDecide(l: Life): Life {
    Emit(l, Decide(l.h, l.r, l.precommitCh)).(asked := true)
  }

  // ----- Entering rounds and committing -----

  function BeginCommit(l: Life, v: View): (Life, bool) {
    var l1 := Start(l.(step := CommitWait), CommitWait);
    match KernelSpec.FindHeader(v.headers, v.summary.precommits.mostVoted)
    case None => (l1, false)
    case Some(header) => (Emit(l1, Finalize(l.h, l.r, header)), true)
  }

  function BeginRoundLive(l: Life, v: View, resp: seq<Response>): Res<Done>
    decreases |resp|, 3
  {
    if v.summary.available == 0 then Panic
    else
      var step := StepFromVotes(v.summary);
      match step
      case AwaitingProposal =>
        var l1 := AskConsider(l, Fitting(l, v.headers)).(step := step, view := Some(v));
        Ok(Done(Start(l1, step), true, resp))
      case AwaitingPrecommits =>
        Ok(Done(AskDecide(l).(step := step, view := Some(v)), true, resp))
      case CommitWait =>
        if v.summary.precommits.mostVoted == NIL_HASH then AdvanceRound(l, resp)
        else
          var (l1, ok) := BeginCommit(l, v);
          Ok(Done(if ok then l1.(view := Some(v)) else l1, ok, resp))
      case _ => Panic
  }

  /** Tells the mirror about the new round and enters it as the mirror answers. */
  function Advance(l: Life, resp: seq<Response>): Res<Done>
    decreases |resp|, 1
  {
    if |resp| == 0 then Ok(Done(l.(mode := Broken), false, resp))
    else
      match resp[0]
      case Failed => Ok(Done(l.(mode := Broken), false, resp[1..]))
      case CaughtUp(header) =>
        var l1 := l.(proposalCh := false, prevoteCh := false, precommitCh := false);
        Ok(Done(Emit(l1, Finalize(l.h, l.r, header)).(mode := CatchingUp), true, resp[1..]))
      case Entered(content) =>
        EnterWith(l, content.(h := l.h, r := l.r), resp[1..])
  }

  function EnterWith(l: Life, v: View, resp: seq<Response>): Res<Done>
    decreases |resp|, 4
  {
    BeginRoundLive(l.(actionsCh := Participating(l), sent := 0, lastDelivered := v.version, entered := v), v, resp)
  }

  function AdvanceRound(l: Life, resp: seq<Response>): Res<Done>
    decreases |resp|, 2
  {
    Advance(ResetRound(l, l.h, l.r + 1), resp)
  }

  function AdvanceHeight(l: Life, resp: seq<Response>): Res<Done> {
    Advance(ResetRound(CycleFinalization(l), l.h + 1, 0), resp)
  }

  // ----- View updates -----

  function StartDelay(l: Life, s: Step): Life {
    Start(l.(step := s), s)
  }

  function OnProposalView(l: Life, v: View, resp: seq<Response>): Res<Done> {
    var vs := v.summary;
    if vs.available == 0 then Panic
    else
      var maj, min := ByzantineMajority(vs.available), ByzantineMinority(vs.available);
      if vs.precommits.total >= maj then
        var l1 :- Stop(l);
        if PowerFor(vs.precommits, vs.precommits.mostVoted) >= maj then Committed(l1, v, resp)
        else Ok(Done(AskDecide(StartDelay(l1, PrecommitDelay)), true, resp))
      else if vs.precommits.total >= min then
        var l1 :- Stop(l);
        Ok(Done(AskDecide(l1.(step := AwaitingPrecommits)), true, resp))
      else if vs.prevotes.total >= maj then
        var l1 :- Stop(l);
        var phs := Fitting(l1, v.headers);
        if PowerFor(vs.prevotes, vs.prevotes.mostVoted) >= maj then
          Ok(Done(Emit(l1.(step := AwaitingPrecommits), Choose(l.h, l.r, phs, l.prevoteCh)), true, resp))
        else Ok(Done(AskConsider(StartDelay(l1, PrevoteDelay), phs), true, resp))
      else if l.view.None? then Panic
      else if |v.headers| > |l.view.value.headers| && |Fitting(l, v.headers)| > |Fitting(l, l.view.value.headers)| then
        Ok(Done(AskConsider(l, Fitting(l, v.headers)), true, resp))
      else Ok(Done(l, true, resp))
  }

  /** A majority precommitted one target. */
  function Committed(l: Life, v: View, resp: seq<Response>): Res<Done> {
    if v.summary.precommits.mostVoted == NIL_HASH then AdvanceRound(l, resp)
    else
      var (l1, ok) := BeginCommit(l, v);
      Ok(Done(l1, ok, resp))
  }

  function StopIf(l: Life, s: Step): Res<Life> {
    if l.step == s then Stop(l) else Ok(l)
  }

  function OnPrevoteView(l: Life, v: View, resp: seq<Response>): Res<Done> {
    var vs := v.summary;
    if vs.available == 0 then Panic
    else
      var maj := ByzantineMajority(vs.available);
      if vs.precommits.total >= maj then
        var l1 :- StopIf(l, PrevoteDelay);
        if PowerFor(vs.precommits, vs.precommits.mostVoted) >= maj then Committed(l1, v, resp)
        else Ok(Done(AskDecide(StartDelay(l1, PrecommitDelay)), true, resp))
      else if vs.prevotes.total >= maj then
        if PowerFor(vs.prevotes, vs.prevotes.mostVoted) >= maj then
          var l1 :- StopIf(l, PrevoteDelay);
          Ok(Done(AskDecide(l1.(step := AwaitingPrecommits)), true, resp))
        else if l.step.AwaitingPrevotes? then Ok(Done(StartDelay(l, PrevoteDelay), true, resp))
        else Ok(Done(l, true, resp))
      else Ok(Done(l, true, resp))
  }

  function OnPrecommitView(l: Life, v: View, resp: seq<Response>): Res<Done> {
    var vs := v.summary;
    if vs.available == 0 then Panic
    else
      var maj := ByzantineMajority(vs.available);
      if vs.precommits.total < maj then Ok(Done(l, true, resp))
      else if PowerFor(vs.precommits, vs.precommits.mostVoted) >= maj then
        if vs.precommits.mostVoted == NIL_HASH then AdvanceRound(l, resp)
        else
          var l1 :- StopIf(l, PrecommitDelay);
          Committed(l1, v, resp)
      else if vs.precommits.total == vs.available then AdvanceRound(l, resp)
      else if l.step.AwaitingPrecommits? then Ok(Done(StartDelay(l, PrecommitDelay), true, resp))
      else Ok(Done(l, true, resp))
  }

  function OnCommitWaitView(l: Life, v: View, resp: seq<Response>): Res<Done> {
    if !l.finalizeCh then Ok(Done(l, true, resp))
    else if l.view.None? then Panic
    else if KernelSpec.FindHeader(l.view.value.headers, l.view.value.summary.precommits.mostVoted).Some? then
      Ok(Done(l, true, resp))
    else
      match KernelSpec.FindHeader(v.headers, v.summary.precommits.mostVoted)
      case None => Ok(Done(l, true, resp))
      case Some(header) => Ok(Done(Emit(l, Finalize(l.h, l.r, header)), true, resp))
  }

  function OnView(l: Life, v: View, resp: seq<Response>): Res<Done> {
    match l.step
    case AwaitingProposal => OnProposalView(l, v, resp)
    case AwaitingPrevotes => OnPrevoteView(l, v, resp)
    case PrevoteDelay => OnPrevoteView(l, v, resp)
    case AwaitingPrecommits => OnPrecommitView(l, v, resp)
    case PrecommitDelay => OnPrecommitView(l, v, resp)
    case CommitWait => OnCommitWaitView(l, v, resp)
    case AwaitingFinalization => OnCommitWaitView(l, v, resp)
  }

  function JumpAhead(l: Life, jump: View, resp: seq<Response>): Res<Done> {
    if jump.h != l.h || jump.r <= l.r then Panic else AdvanceRound(l, resp)
  }

  /** Keeps the view that was just handled, unless the state machine left its round. */
  function KeepView(l: Life, v: View): Life {
    if l.view.Some? && Matches(l.view.value, v.h, v.r) then l.(view := Some(v)) else l
  }

  /** What follows the handling of a view: keeping it, and jumping ahead if the mirror said so. */
  function AfterView(l: Life, v: View, jump: Option<View>, resp: seq<Response>): Res<Done> {
    var l1 := KeepView(l, v);
    if jump.None? then Ok(Done(l1, true, resp)) else JumpAhead(l1, jump.value, resp)
  }

  /** A newer view of the current round. */
  function NewView(l: Life, v: View, jump: Option<View>, resp: seq<Response>): Res<Done> {
    var d :- OnView(l.(lastDelivered := v.version), v, resp);
    if !d.l.mode.Live? then Ok(d) else AfterView(d.l, v, jump, d.rest)
  }

  function ViewUpdate(l: Life, vrv: Option<View>, jump: Option<View>, resp: seq<Response>): Res<Done> {
    match vrv
    case None => if jump.None? then Panic else JumpAhead(l, jump.value, resp)
    case Some(v) =>
      if !Matches(v, l.h, l.r) then Ok(Done(l, true, resp))
      else if l.view.None? then Panic
      else if v.version <= l.view.value.version then Ok(Done(l.(mode := Terminated), true, resp))
      else NewView(l, v, jump, resp)
  }

  // ----- Other events -----

  datatype FinResponse = FinResponse(h: nat, r: nat, vals: ValSet, appHash: string, blockHash: string)

  datatype Event =
    | ViewIn(vrv: Option<View>, jump: Option<View>)
    | ProposalIn(saved: bool)
    | PrevoteIn(hash: Option<Hash>, saved: bool)
    | PrecommitIn(hash: Option<Hash>, saved: bool)
    | FinalizationIn(fin: FinResponse, saved: bool)
    | TimerElapsed
    | HeightCommitted
    | DataArrived(ah: nat, ar: nat, someNeeded: bool)

  /** Sends an action; a nil channel blocks for good, as a full one would. */
  function SendAction(l: Life): Res<Life> {
    if l.actionsCh && l.sent < 3 then Ok(l.(sent := l.sent + 1)) else Panic
  }

  function SendVote(l: Life): Res<Life> {
    if Participating(l) then SendAction(l) else Ok(l)
  }

  function Halt(l: Life, resp: seq<Response>): Res<Done> {
    Ok(Done(l, false, resp))
  }

  /** The proposal carries the signer's key, so without a signer it is a panic. */
  function OnProposal(l: Life, saved: bool, resp: seq<Response>): Res<Done> {
    if l.signer.None? then Panic
    else if !saved then Halt(l, resp)
    else
      var l1 :- SendAction(l);
      Ok(Done(l1.(proposalCh := false), true, resp))
  }

  /** Our own prevote ends the wait for a proposal. */
  function PrevoteDone(l: Life): Res<Life> {
    var l1 :- if l.step.AwaitingProposal? then Stop(l.(step := AwaitingPrevotes)) else Ok(l);
    Ok(l1.(prevoteCh := false))
  }

  /** `hash` is absent when the strategy answered with an error. */
  function OnPrevote(l: Life, hash: Option<Hash>, saved: bool, resp: seq<Response>): Res<Done> {
    if hash.None? || (Participating(l) && !saved) then Halt(l, resp)
    else
      var l1 :- SendVote(l);
      var l2 :- PrevoteDone(l1);
      Ok(Done(l2, true, resp))
  }

  function OnPrecommit(l: Life, hash: Option<Hash>, saved: bool, resp: seq<Response>): Res<Done> {
    if hash.None? || (Participating(l) && !saved) then Halt(l, resp)
    else
      var l1 :- SendVote(l);
      Ok(Done(l1.(precommitCh := false), true, resp))
  }

  /** The finalization store refuses to overwrite; `saved` is false when it fails for another reason. */
  function OnFinalization(l: Life, fin: FinResponse, saved: bool, resp: seq<Response>): Res<Done> {
    if fin.vals.keys == [] then Panic
    else
      var l1 := l.(finVals := fin.vals, finAppHash := fin.appHash, finBlockHash := fin.blockHash, finalizeCh := false);
      if fin.h != l.h || fin.r != l.r then Panic
      else if !saved || l.h in l.store then Halt(l1, resp)
      else
        var l2 := l1.(store := l.store[l.h := Finalization(l.r, fin.blockHash, fin.vals, fin.appHash)]);
        if l.step.AwaitingFinalization? then AdvanceHeight(l2, resp) else Ok(Done(l2, true, resp))
  }

  function CommitWaitOver(l: Life, resp: seq<Response>): Res<Done> {
    if l.finVals.keys == [] then Ok(Done(l.(step := AwaitingFinalization), true, resp)) else AdvanceHeight(l, resp)
  }

  function OnTimer(l: Life, resp: seq<Response>): Res<Done> {
    match l.step
    case AwaitingProposal =>
      if l.view.None? then Panic
      else
        var l1 := Emit(l, Choose(l.h, l.r, Fitting(l, l.view.value.headers), l.prevoteCh));
        var l2 :- Stop(l1.(step := AwaitingPrevotes));
        Ok(Done(l2, true, resp))
    case PrevoteDelay =>
      var l1 :- Stop(AskDecide(l).(step := AwaitingPrecommits));
      Ok(Done(l1, true, resp))
    case PrecommitDelay =>
      var l1 :- Stop(l);
      AdvanceRound(l1, resp)
    case CommitWait =>
      var l1 :- Stop(l);
      CommitWaitOver(l1, resp)
    case _ => Panic
  }

  function OnHeightCommitted(l: Life, resp: seq<Response>): Res<Done> {
    var l1 := l.(heightCommittedCh := false, timer := None);
    match l.step
    case AwaitingFinalization => Ok(Done(l1, true, resp))
    case CommitWait => CommitWaitOver(l1, resp)
    case _ => Panic
  }

  function OnDataArrived(l: Life, ah: nat, ar: nat, someNeeded: bool, resp: seq<Response>): Res<Done> {
    if !l.prevoteCh || ah != l.h || ar != l.r then Ok(Done(l, true, resp))
    else if l.view.None? then Panic
    else
      var phs := Fitting(l, l.view.value.headers);
      Ok(Done(if someNeeded then AskConsider(l, phs) else l, true, resp))
  }

  function Handle(l: Life, e: Event, resp: seq<Response>): Res<Done> {
    match e
    case ViewIn(vrv, jump) =>
      var d :- ViewUpdate(l, vrv, jump, resp);
      Ok(d.(ok := true)) // The handlers' results are ignored here.
    case ProposalIn(saved) => OnProposal(l, saved, resp)
    case PrevoteIn(hash, saved) => OnPrevote(l, hash, saved, resp)
    case PrecommitIn(hash, saved) => OnPrecommit(l, hash, saved, resp)
    case FinalizationIn(fin, saved) => OnFinalization(l, fin, saved, resp)
    case TimerElapsed => OnTimer(l, resp)
    case HeightCommitted => OnHeightCommitted(l, resp)
    case DataArrived(ah, ar, someNeeded) => OnDataArrived(l, ah, ar, someNeeded, resp)
  }

  predicate FinalizeAsked(l: Life) {
    exists i :: 0 <= i < |l.log| && AsksFinalization(l.log[i], l.h, l.r)
  }

  predicate AsksFinalization(q: Request, h: nat, r: nat) {
    q.Finalize? && q.h == h && q.r == r
  }

  /** Which events can happen: a channel or timer that exists and whose other end was given out; and the
    mirror sends views of the current round with increasing versions. */
  predicate Enabled(l: Life, e: Event) {
    && l.mode.Live?
    && match e
       case ViewIn(vrv, _) => vrv.Some? && Matches(vrv.value, l.h, l.r) ==> vrv.value.version > l.lastDelivered
       case ProposalIn(_) => l.proposalCh
       case PrevoteIn(_, _) => l.prevoteCh
       case PrecommitIn(_, _) => l.precommitCh && l.asked
       case FinalizationIn(_, _) => l.finalizeCh && FinalizeAsked(l)
       case TimerElapsed => l.timer.Some?
       case HeightCommitted => l.heightCommittedCh
       case DataArrived(_, _, _) => true
  }

  /** The event loop ends when a handler reports failure. */
  function Settle(d: Done): Life {
    if d.ok || !d.l.mode.Live? then d.l else d.l.(mode := Halted)
  }

  /** One iteration of the event loop, with the answers the mirror will give meanwhile. */
  function Iterate(l: Life, e: Event, resp: seq<Response>): Res<Life> {
    var d :- Handle(l, e, resp);
    Ok(Settle(d))
  }

  /** Before the first entrance, on an empty store. */
  function AtGenesis(signer: Option<Key>, initialHeight: nat, vals: ValSet, appHash: string, blockHash: string): Life {
    ResetRound(
      Life(Live, signer, vals, appHash, initialHeight, 0, 0, AwaitingProposal, None, true,
           vals, vals, vals, appHash, blockHash, None, false, 0, false, false, false, false,
           NO_VALS, "", "", map[], [], false, 0, ZERO_VIEW),
      initialHeight, 0)
  }

  /** The first entrance, at genesis: only fitting headers of the mirror's view are considered. The
    state machine does not start unless this succeeds. */
  function StartLive(l: Life, content: View, resp: seq<Response>): Res<Done> {
    EnterWith(l, content.(h := l.h, r := l.r, headers := Fitting(l, content.headers)), resp)
  }
}
