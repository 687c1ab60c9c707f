/** One mirror and the state machine beside it, with the messages between them: round entrances and their
  answers, views and jumps. Everything else happens in any order. */
module Joint {
  import opened Options
  import opened Votes
  import opened Views
  import opened KernelSpec
  import opened KernelInv
  import opened MirrorSystem
  import opened MirrorRuns
  import opened Feeding
  import RoundSpec
  import RoundInv
  import RoundRuns
  import Entrances

  // ----- Steps -----

  /** The mirror answers one round entrance, after some events of its own. `header` is the committed header
    it answers with when the round is behind. */
  datatype Serving = Serving(before: seq<Input>, key: Option<Key>, header: Header)

  datatype Served = Served(m: Mirror, resp: seq<RoundSpec.Response>)

  function Answer(k: K, h: nat, r: nat, header: Header): RoundSpec.Response {
    match FindView(k, h, r)
    case Found(id) => RoundSpec.Entered(GetView(k, id))
    case _ => RoundSpec.CaughtUp(header)
  }

  /** The answers to entering the rounds from `r` on, one after the other. */
  ghost function Serve(m: Mirror, h: nat, r: nat, ss: seq<Serving>): Outcome<Served>
    decreases |ss|
  {
    if |ss| == 0 then Ok(Served(m, []))
    else
      match Run(m, ss[0].before)
      case Stuck => Stuck
      case Ok(m1) =>
        match Step({}, m1, SMEnter(h, r, ss[0].key))
        case Stuck => Stuck
        case Ok(m2) =>
          match Serve(m2, h, r + 1, ss[1..])
          case Stuck => Stuck
          case Ok(s) => Ok(Served(s.m, [Answer(m1.k, h, r, ss[0].header)] + s.resp))
  }

  ghost predicate AllApart(es: seq<Input>) {
    forall i :: 0 <= i < |es| ==> Apart(es[i].event)
  }

  ghost predicate AllServed(ss: seq<Serving>) {
    forall i :: 0 <= i < |ss| ==> AllApart(ss[i].before)
  }

  datatype Pair = Pair(m: Mirror, l: RoundSpec.Life)

  /** `Deliver`: the state machine takes what the mirror has for it. `Own`: another of its events. Both with
    the servings of the rounds it enters meanwhile. */
  datatype Move =
    | Meanwhile(es: seq<Input>)
    | Deliver(ss: seq<Serving>)
    | Own(e: RoundSpec.Event, ss: seq<Serving>)

  ghost predicate Possible(p: Pair, x: Move) {
    match x
    case Meanwhile(es) => AllApart(es)
    case Deliver(ss) => p.l.mode.Live? && Output(p.m.k.sm).Send? && AllServed(ss)
    case Own(e, ss) =>
      && !e.ViewIn? && RoundSpec.Enabled(p.l, e) && (e.HeightCommitted? ==> p.m.k.sm.heightCommitted)
      && AllServed(ss)
  }

  function Delivered(m: Mirror): RoundSpec.Event
    requires Output(m.k.sm).Send?
  {
    RoundSpec.ViewIn(Output(m.k.sm).vrv, Output(m.k.sm).jump)
  }

  /** The state machine handles an event. A panic is stuck; so is a number of servings that is not the number
    of entrances, fewer being an entrance that fails. */
  ghost function Take(m: Mirror, l: RoundSpec.Life, e: RoundSpec.Event, ss: seq<Serving>): Outcome<Pair> {
    match Serve(m, Entrances.NextRound(l, e).0, Entrances.NextRound(l, e).1, ss)
    case Stuck => Stuck
    case Ok(s) =>
      match RoundSpec.Handle(l, e, s.resp)
      case Panic => Stuck
      case Ok(d) => if d.rest == [] then Ok(Pair(s.m, RoundSpec.Settle(d))) else Stuck
  }

  ghost function Next(p: Pair, x: Move): Outcome<Pair>
    requires Possible(p, x)
  {
    match x
    case Meanwhile(es) => (match Run(p.m, es) case Stuck => Stuck case Ok(m) => Ok(p.(m := m)))
    case Deliver(ss) => Take(p.m.(k := MarkSMSent(p.m.k)), p.l, Delivered(p.m), ss)
    case Own(e, ss) => Take(p.m, p.l, e, ss)
  }

  // ----- Runs -----

  datatype Genesis = Genesis(signer: Option<Key>, initialHeight: nat, vals: ValSet, appHash: string, blockHash: string)

  function ConfigOf(g: Genesis, content: View, resp: seq<RoundSpec.Response>): RoundRuns.Config {
    RoundRuns.Config(g.signer, g.initialHeight, g.vals, g.appHash, g.blockHash, content, resp)
  }

  /** The first entrance, and those it leads to at once. */
  ghost function Starting(g: Genesis, ss: seq<Serving>): Outcome<Pair> {
    if !AllServed(ss) then Stuck
    else
      match Serve(Start(g.initialHeight, g.vals), g.initialHeight, 0, ss)
      case Stuck => Stuck
      case Ok(s) =>
        if |s.resp| == 0 || !s.resp[0].Entered? then Stuck
        else
          var c := ConfigOf(g, s.resp[0].content, s.resp[1..]);
          if RoundRuns.Starts(c) && RoundRuns.Begin(c).value.rest == [] then Ok(Pair(s.m, RoundRuns.Begin(c).value.l))
          else Stuck
  }

  /** What is not possible does not happen. */
  ghost function RunPair(g: Genesis, ss: seq<Serving>, xs: seq<Move>): Outcome<Pair> {
    if |xs| == 0 then Starting(g, ss)
    else
      match RunPair(g, ss, xs[..|xs| - 1])
      case Stuck => Stuck
      case Ok(p) => if Possible(p, xs[|xs| - 1]) then Next(p, xs[|xs| - 1]) else Ok(p)
  }

  // ----- The two halves -----

  ghost predicate MirrorReached(g: Genesis, m: Mirror) {
    exists es :: MirrorRun(g, es, m)
  }

  ghost predicate MirrorRun(g: Genesis, es: seq<Input>, m: Mirror) {
    ForwardRun(Start(g.initialHeight, g.vals), es) && Run(Start(g.initialHeight, g.vals), es) == Ok(m)
  }

  ghost predicate LifeReached(g: Genesis, l: RoundSpec.Life) {
    exists content, resp, ts :: LifeRun(g, content, resp, ts, l)
  }

  ghost predicate LifeRun(g: Genesis, content: View, resp: seq<RoundSpec.Response>, ts: seq<RoundRuns.Turn>, l: RoundSpec.Life) {
    RoundRuns.Starts(ConfigOf(g, content, resp)) && RoundRuns.RunOf(ConfigOf(g, content, resp), ts) == RoundSpec.Ok(l)
  }

  lemma ReachedOk(g: Genesis, m: Mirror)
    requires g.initialHeight > 0 && MirrorReached(g, m)
    ensures MirrorOk(m)
  {
    var es :| MirrorRun(g, es, m);
    assert es[..|es|] == es;
    RunKeeps(g.initialHeight, g.vals, es, |es|);
  }

  lemma ReachNext(g: Genesis, m: Mirror, x: Input, m': Mirror)
    requires MirrorReached(g, m) && Forward(m, x.event) && Step(x.signed, m, x.event) == Ok(m')
    ensures MirrorReached(g, m')
  {
    var es :| MirrorRun(g, es, m);
    var start, fs := Start(g.initialHeight, g.vals), es + [x];
    assert fs[..|es|] == es;
    forall i | 0 <= i < |fs| ensures ForwardAt(start, fs, i) {
      if i < |es| {
        assert ForwardAt(start, es, i);
        assert fs[..i] == es[..i];
      }
    }
    assert MirrorRun(g, fs, m');
  }

  lemma {:induction false} ReachApart(g: Genesis, m: Mirror, es: seq<Input>)
    requires g.initialHeight > 0 && MirrorReached(g, m) && AllApart(es) && Run(m, es).Ok?
    ensures MirrorReached(g, Run(m, es).value) && FedSince(m.k, Run(m, es).value.k)
  {
    if |es| > 0 {
      var x := es[|es| - 1];
      ReachApart(g, m, es[..|es| - 1]);
      var m1 := Run(m, es[..|es| - 1]).value;
      ReachedOk(g, m1);
      StepFed(x.signed, m1, x.event);
      ReachNext(g, m1, x, Run(m, es).value);
      FedTrans(m.k, m1.k, Run(m, es).value.k);
    }
  }

  lemma LifeOk(g: Genesis, l: RoundSpec.Life)
    requires LifeReached(g, l)
    ensures RoundInv.Inv(l) && l.initialHeight == g.initialHeight <= l.h
  {
    var content, resp, ts :| LifeRun(g, content, resp, ts, l);
    RoundRuns.RunKeepsRound(ConfigOf(g, content, resp), ts);
    RoundRuns.GenesisStays(ConfigOf(g, content, resp), ts);
  }

  lemma LifeNext(g: Genesis, l: RoundSpec.Life, e: RoundSpec.Event, resp: seq<RoundSpec.Response>, l': RoundSpec.Life)
    requires LifeReached(g, l) && RoundSpec.Enabled(l, e) && RoundSpec.Iterate(l, e, resp) == RoundSpec.Ok(l')
    ensures LifeReached(g, l')
  {
    var content, first, ts :| LifeRun(g, content, first, ts, l);
    var us := ts + [RoundRuns.Turn(e, resp)];
    assert us[..|us| - 1] == ts;
    assert LifeRun(g, content, first, us, l');
  }

  // ----- Round entrances -----

  /** The last answer is what the mirror has for the state machine. */
  ghost predicate LastAnswer(k: K, resp: seq<RoundSpec.Response>) {
    |resp| > 0 && resp[|resp| - 1].Entered? ==>
      && var v := resp[|resp| - 1].content;
      && Matches(v, k.sm.h, k.sm.r) && |k.sm.delivered| > 0 && k.sm.lastSent == v.version
      && (Fed(k).Some? ==> Fed(k) == Some(v))
  }

  lemma EnterAnswers(k: K, h: nat, r: nat, key: Option<Key>, header: Header)
    requires Inv(k) && h > 0 && Enter(k, h, r, key).Ok?
    ensures
      var k2 := Enter(k, h, r, key).value;
      k2.sm.h == h && k2.sm.r == r && LastAnswer(k2, [Answer(k, h, r, header)])
  {
  }

  lemma {:induction false} ServeReaches(g: Genesis, m: Mirror, h: nat, r: nat, ss: seq<Serving>)
    requires g.initialHeight > 0 && MirrorReached(g, m) && AllServed(ss) && Serve(m, h, r, ss).Ok?
    requires HRLess(m.k.sm.h, m.k.sm.r, h, r) && h > 0
    ensures
      var s := Serve(m, h, r, ss).value;
      && MirrorReached(g, s.m) && |s.resp| == |ss|
      && (|ss| > 0 ==> s.m.k.sm.h == h && s.m.k.sm.r == r + |ss| - 1)
      && LastAnswer(s.m.k, s.resp)
    decreases |ss|
  {
    if |ss| > 0 {
      var m1 := Run(m, ss[0].before).value;
      var m2 := Step({}, m1, SMEnter(h, r, ss[0].key)).value;
      ReachApart(g, m, ss[0].before);
      ReachedOk(g, m1);
      ReachNext(g, m1, Input({}, SMEnter(h, r, ss[0].key)), m2);
      EnterAnswers(m1.k, h, r, ss[0].key, ss[0].header);
      forall i | 0 <= i < |ss[1..]| ensures AllApart(ss[1..][i].before) {
        assert ss[1..][i] == ss[i + 1];
      }
      ServeReaches(g, m2, h, r + 1, ss[1..]);
      LastOfMore(m2, Answer(m1.k, h, r, ss[0].header), Serve(m2, h, r + 1, ss[1..]).value);
    }
  }

  lemma LastOfMore(m: Mirror, first: RoundSpec.Response, s: Served)
    requires if |s.resp| == 0 then s.m == m && LastAnswer(m.k, [first]) else LastAnswer(s.m.k, s.resp)
    ensures LastAnswer(s.m.k, [first] + s.resp)
  {
    if |s.resp| > 0 {
      assert ([first] + s.resp)[|s.resp|] == s.resp[|s.resp| - 1];
    }
  }

  // ----- What every run of the two keeps -----

  /** The kept view is the mirror's. Only in the first round of all it may lack headers, those that did not
    fit when the state machine started. */
  ghost predicate Holds(g: Genesis, l: RoundSpec.Life, v: View) {
    && l.view.Some?
    && if l.h == g.initialHeight && l.r == 0 then l.view.value.(headers := v.headers) == v else l.view.value == v
  }

  /** A live state machine is where the mirror believes it to be and was delivered what the mirror believes
    it was; unless it entered the round without the committed header, it holds what it was delivered. */
  ghost predicate Linked(g: Genesis, k: K, l: RoundSpec.Life) {
    l.mode.Live? ==>
      && k.sm.h == l.h && k.sm.r == l.r && |k.sm.delivered| > 0 && k.sm.lastSent == l.lastDelivered
      && (!RoundInv.LacksHeader(l.entered) && Fed(k).Some? && Fed(k).value.version <= k.sm.lastSent ==> Holds(g, l, Fed(k).value))
  }

  ghost predicate PairOk(g: Genesis, p: Pair) {
    MirrorReached(g, p.m) && LifeReached(g, p.l) && Linked(g, p.m.k, p.l)
  }

  lemma LinkedSince(g: Genesis, k: K, k': K, l: RoundSpec.Life)
    requires Linked(g, k, l) && FedSince(k, k') && (l.mode.Live? ==> l.h > 0)
    ensures Linked(g, k', l)
  {
  }

  /** After entering rounds. */
  lemma ArrivesLinked(g: Genesis, k: K, l: RoundSpec.Life, d: RoundSpec.Done, resp: seq<RoundSpec.Response>, h: nat, r: nat)
    requires Entrances.Arrives(d, resp, h, r) && d.rest == [] && LastAnswer(k, resp) && k.sm.h == h && k.sm.r == r + |resp| - 1
    requires h > g.initialHeight || r > 0
    ensures Linked(g, k, d.l)
  {
    assert resp[|resp|..] == [];
    var v := resp[|resp| - 1].content;
    assert v.(h := d.l.h, r := d.l.r) == v;
  }

  /** An event of its own that makes the state machine enter no round. */
  lemma RemainsLinked(g: Genesis, k: K, l: RoundSpec.Life, d: RoundSpec.Done)
    requires Linked(g, k, l) && l.mode.Live? && Entrances.SamePlace(d.l, l)
    ensures Linked(g, k, d.l)
  {
  }

  /** The mirror counts as sent what is delivered now, and that is the view it feeds. */
  lemma SentIsFed(k: K)
    requires Inv(k) && Output(k.sm).Send? && k.sm.h > 0
    ensures
      var vrv, k' := Output(k.sm).vrv, MarkSMSent(k);
      && k'.sm.h == k.sm.h && k'.sm.r == k.sm.r && Fed(k') == Fed(k)
      && if vrv.Some? then
           && Matches(vrv.value, k.sm.h, k.sm.r) && vrv.value.version > k.sm.lastSent
           && k'.sm.lastSent == vrv.value.version && |k'.sm.delivered| > 0
           && (Fed(k).Some? ==> Fed(k) == vrv)
         else k'.sm.lastSent == k.sm.lastSent && k'.sm.delivered == k.sm.delivered
  {
  }

  /** The state machine with a delivered view. */
  function Seen(l: RoundSpec.Life, vrv: Option<View>): RoundSpec.Life {
    if vrv.None? then l else RoundSpec.KeepView(l.(lastDelivered := vrv.value.version), vrv.value)
  }

  lemma SeenIsKept(l: RoundSpec.Life, v: View)
    requires RoundInv.ViewOk(l) && Matches(v, l.h, l.r)
    ensures
      var m := Seen(l, Some(v));
      && m.h == l.h && m.r == l.r && m.mode == l.mode && m.lastDelivered == v.version && m.entered == l.entered
      && (!RoundInv.LacksHeader(l.entered) ==> m.view == Some(v))
  {
    Entrances.KeepViewStays(l.(lastDelivered := v.version), v);
  }

  lemma SentLinked(g: Genesis, k: K, l: RoundSpec.Life)
    requires Inv(k) && Output(k.sm).Send? && Linked(g, k, l) && l.mode.Live? && l.h > 0 && RoundInv.ViewOk(l)
    ensures
      var vrv := Output(k.sm).vrv;
      vrv.Some? ==> Matches(vrv.value, l.h, l.r) && vrv.value.version > l.lastDelivered
    ensures Linked(g, MarkSMSent(k), Seen(l, Output(k.sm).vrv))
  {
    SentIsFed(k);
    var vrv := Output(k.sm).vrv;
    if vrv.Some? {
      SeenIsKept(l, vrv.value);
      SeenLinked(g, MarkSMSent(k), l, vrv.value);
    }
  }

  lemma SeenLinked(g: Genesis, k: K, l: RoundSpec.Life, v: View)
    requires l.mode.Live? && k.sm.h == l.h && k.sm.r == l.r && k.sm.lastSent == v.version && |k.sm.delivered| > 0
    requires RoundInv.ViewOk(l) && Matches(v, l.h, l.r) && (Fed(k).Some? ==> Fed(k) == Some(v))
    ensures Linked(g, k, Seen(l, Some(v)))
  {
    SeenIsKept(l, v);
  }

  /** Handling with the entrances it causes. `seen` is the state machine with what was delivered. */
  lemma TakeLinked(g: Genesis, m: Mirror, seen: RoundSpec.Life, h: nat, r: nat, ss: seq<Serving>, d: RoundSpec.Done)
    requires g.initialHeight > 0 && MirrorReached(g, m) && Linked(g, m.k, seen) && seen.mode.Live?
    requires HRLess(seen.h, seen.r, h, r) && h >= g.initialHeight && (h == g.initialHeight ==> r > 0)
    requires AllServed(ss) && Serve(m, h, r, ss).Ok? && d.rest == []
    requires Entrances.Lands(d, seen, Serve(m, h, r, ss).value.resp, h, r)
    ensures MirrorReached(g, Serve(m, h, r, ss).value.m)
    ensures Linked(g, Serve(m, h, r, ss).value.m.k, RoundSpec.Settle(d))
  {
    ServeReaches(g, m, h, r, ss);
    var s := Serve(m, h, r, ss).value;
    if d.l.mode.Live? && d.ok {
      if Entrances.Arrives(d, s.resp, h, r) {
        ArrivesLinked(g, s.m.k, seen, d, s.resp, h, r);
      } else {
        assert s.resp == [];
        RemainsLinked(g, m.k, seen, d);
      }
    }
  }

  lemma TakeKeeps(g: Genesis, m: Mirror, l: RoundSpec.Life, seen: RoundSpec.Life, e: RoundSpec.Event, ss: seq<Serving>)
    requires g.initialHeight > 0 && MirrorReached(g, m) && LifeReached(g, l) && RoundSpec.Enabled(l, e)
    requires Linked(g, m.k, seen) && seen.mode.Live? && seen.h == l.h >= g.initialHeight && seen.r == l.r
    requires AllServed(ss) && Take(m, l, e, ss).Ok?
    requires
      var next := Entrances.NextRound(l, e);
      var resp := Serve(m, next.0, next.1, ss).value.resp;
      Entrances.Lands(RoundSpec.Handle(l, e, resp).value, seen, resp, next.0, next.1)
    ensures PairOk(g, Take(m, l, e, ss).value)
  {
    var next := Entrances.NextRound(l, e);
    var s := Serve(m, next.0, next.1, ss).value;
    var d := RoundSpec.Handle(l, e, s.resp).value;
    TakeLinked(g, m, seen, next.0, next.1, ss, d);
    LifeNext(g, l, e, s.resp, RoundSpec.Settle(d));
  }

  lemma OwnKeeps(g: Genesis, p: Pair, e: RoundSpec.Event, ss: seq<Serving>)
    requires g.initialHeight > 0 && PairOk(g, p) && Possible(p, Own(e, ss)) && Take(p.m, p.l, e, ss).Ok?
    ensures PairOk(g, Take(p.m, p.l, e, ss).value)
  {
    LifeOk(g, p.l);
    var next := Entrances.NextRound(p.l, e);
    Entrances.EventSettles(p.l, e, Serve(p.m, next.0, next.1, ss).value.resp);
    TakeKeeps(g, p.m, p.l, p.l, e, ss);
  }

  lemma ReachSent(g: Genesis, m: Mirror)
    requires MirrorReached(g, m)
    ensures MirrorReached(g, m.(k := MarkSMSent(m.k)))
  {
    ReachNext(g, m, Input({}, SMSend), m.(k := MarkSMSent(m.k)));
  }

  lemma SeenLive(l: RoundSpec.Life, vrv: Option<View>)
    requires l.mode.Live?
    ensures var m := Seen(l, vrv); m.mode.Live? && m.h == l.h && m.r == l.r
  {
    if vrv.Some? { Entrances.KeepViewStays(l.(lastDelivered := vrv.value.version), vrv.value); }
  }

  /** A delivery is an event that can happen, and leaves the pair ready to handle it. */
  lemma DeliverReady(g: Genesis, p: Pair)
    requires g.initialHeight > 0 && PairOk(g, p) && p.l.mode.Live? && Output(p.m.k.sm).Send?
    ensures
      var vrv := Output(p.m.k.sm).vrv;
      && RoundSpec.Enabled(p.l, Delivered(p.m))
      && (vrv.Some? ==> Matches(vrv.value, p.l.h, p.l.r) && vrv.value.version > p.l.lastDelivered)
      && Linked(g, MarkSMSent(p.m.k), Seen(p.l, vrv)) && MirrorReached(g, p.m.(k := MarkSMSent(p.m.k)))
      && var seen := Seen(p.l, vrv); seen.mode.Live? && seen.h == p.l.h >= g.initialHeight && seen.r == p.l.r
  {
    LifeOk(g, p.l);
    ReachedOk(g, p.m);
    SentLinked(g, p.m.k, p.l);
    ReachSent(g, p.m);
    SeenLive(p.l, Output(p.m.k.sm).vrv);
  }

  lemma ViewTaken(g: Genesis, m: Mirror, l: RoundSpec.Life, vrv: Option<View>, jump: Option<View>, ss: seq<Serving>)
    requires g.initialHeight > 0 && MirrorReached(g, m) && LifeReached(g, l) && RoundSpec.Enabled(l, RoundSpec.ViewIn(vrv, jump))
    requires vrv.Some? ==> Matches(vrv.value, l.h, l.r)
    requires Linked(g, m.k, Seen(l, vrv)) && l.h >= g.initialHeight
    requires AllServed(ss) && Take(m, l, RoundSpec.ViewIn(vrv, jump), ss).Ok?
    ensures PairOk(g, Take(m, l, RoundSpec.ViewIn(vrv, jump), ss).value)
  {
    SeenLive(l, vrv);
    ViewHandled(l, vrv, jump, Serve(m, l.h, l.r + 1, ss).value.resp);
    TakeKeeps(g, m, l, Seen(l, vrv), RoundSpec.ViewIn(vrv, jump), ss);
  }

  lemma DeliverKeeps(g: Genesis, p: Pair, ss: seq<Serving>)
    requires g.initialHeight > 0 && PairOk(g, p) && Possible(p, Deliver(ss)) && Next(p, Deliver(ss)).Ok?
    ensures PairOk(g, Next(p, Deliver(ss)).value)
  {
    DeliverReady(g, p);
    ViewTaken(g, p.m.(k := MarkSMSent(p.m.k)), p.l, Output(p.m.k.sm).vrv, Output(p.m.k.sm).jump, ss);
  }

  lemma ViewHandled(l: RoundSpec.Life, vrv: Option<View>, jump: Option<View>, resp: seq<RoundSpec.Response>)
    requires l.mode.Live? && RoundSpec.Handle(l, RoundSpec.ViewIn(vrv, jump), resp).Ok? && (vrv.Some? ==> Matches(vrv.value, l.h, l.r))
    ensures Entrances.Lands(RoundSpec.Handle(l, RoundSpec.ViewIn(vrv, jump), resp).value, Seen(l, vrv), resp, l.h, l.r + 1)
  {
    Entrances.ViewUpdateSettles(l, vrv, jump, resp);
    Entrances.SettlesOk(RoundSpec.ViewUpdate(l, vrv, jump, resp).value, Seen(l, vrv), resp, l.h, l.r + 1);
  }

  /** The first round is entered with the mirror's view, without the headers that do not fit. */
  lemma FirstEntered(g: Genesis, k: K, content: View)
    requires
      var c := ConfigOf(g, content, []);
      RoundRuns.Starts(c) && RoundRuns.Begin(c).value.l.mode.Live?
    requires LastAnswer(k, [RoundSpec.Entered(content)]) && k.sm.h == g.initialHeight && k.sm.r == 0
    ensures Linked(g, k, RoundRuns.Begin(ConfigOf(g, content, [])).value.l)
  {
    var l := RoundSpec.AtGenesis(g.signer, g.initialHeight, g.vals, g.appHash, g.blockHash);
    var v := content.(h := l.h, r := l.r, headers := RoundSpec.Fitting(l, content.headers));
    var l1 := l.(actionsCh := RoundSpec.Participating(l), sent := 0, lastDelivered := v.version, entered := v);
    assert RoundRuns.Begin(ConfigOf(g, content, [])) == RoundSpec.BeginRoundLive(l1, v, []);
    Entrances.EntersOrPasses(l1, v, []);
  }

  /** It was left at once, for a nil majority. */
  lemma FirstPassed(g: Genesis, k: K, content: View, resp: seq<RoundSpec.Response>)
    requires |resp| > 0
    requires
      var c := ConfigOf(g, content, resp);
      RoundRuns.Starts(c) && RoundRuns.Begin(c).value.l.mode.Live? && RoundRuns.Begin(c).value.rest == []
    requires LastAnswer(k, resp) && k.sm.h == g.initialHeight && k.sm.r == |resp|
    ensures Linked(g, k, RoundRuns.Begin(ConfigOf(g, content, resp)).value.l)
  {
    var l := RoundSpec.AtGenesis(g.signer, g.initialHeight, g.vals, g.appHash, g.blockHash);
    var v := content.(h := l.h, r := l.r, headers := RoundSpec.Fitting(l, content.headers));
    var l1 := l.(actionsCh := RoundSpec.Participating(l), sent := 0, lastDelivered := v.version, entered := v);
    assert RoundRuns.Begin(ConfigOf(g, content, resp)) == RoundSpec.BeginRoundLive(l1, v, resp);
    Entrances.EntersOrPasses(l1, v, resp);
    var d := RoundSpec.BeginRoundLive(l1, v, resp).value;
    assert Entrances.NilMajority(v);
    Entrances.AdvanceArrives(RoundSpec.ResetRound(l1, l1.h, l1.r + 1), resp);
    ArrivesLinked(g, k, l, d, resp, g.initialHeight, 1);
  }

  lemma StartingKeeps(g: Genesis, ss: seq<Serving>)
    requires g.initialHeight > 0 && Starting(g, ss).Ok?
    ensures PairOk(g, Starting(g, ss).value)
  {
    var m := Start(g.initialHeight, g.vals);
    assert MirrorRun(g, [], m);
    ServeReaches(g, m, g.initialHeight, 0, ss);
    var s := Serve(m, g.initialHeight, 0, ss).value;
    var content, resp := s.resp[0].content, s.resp[1..];
    var l := Starting(g, ss).value.l;
    assert LifeRun(g, content, resp, [], l);
    if l.mode.Live? {
      if |resp| == 0 {
        assert resp == [] && s.resp == [RoundSpec.Entered(content)];
        FirstEntered(g, s.m.k, content);
      } else {
        assert s.resp[|s.resp| - 1] == resp[|resp| - 1];
        FirstPassed(g, s.m.k, content, resp);
      }
    }
  }

  /** Every run of the two together is a run of the mirror and a run of the state machine - so all that is
    proved of either holds - and links them: a live state machine is where the mirror believes it to be,
    and was delivered what the mirror believes it was. */
  lemma {:induction false} PairKeeps(g: Genesis, ss: seq<Serving>, xs: seq<Move>)
    requires g.initialHeight > 0 && RunPair(g, ss, xs).Ok?
    ensures PairOk(g, RunPair(g, ss, xs).value)
  {
    if |xs| == 0 {
      StartingKeeps(g, ss);
    } else {
      var front, x := xs[..|xs| - 1], xs[|xs| - 1];
      PairKeeps(g, ss, front);
      var p := RunPair(g, ss, front).value;
      if Possible(p, x) {
        match x {
          case Meanwhile(es) => MeanwhileKeeps(g, p, es);
          case Deliver(served) => DeliverKeeps(g, p, served);
          case Own(e, served) => OwnKeeps(g, p, e, served);
        }
      }
    }
  }

  lemma MeanwhileKeeps(g: Genesis, p: Pair, es: seq<Input>)
    requires g.initialHeight > 0 && PairOk(g, p) && AllApart(es) && Run(p.m, es).Ok?
    ensures PairOk(g, p.(m := Run(p.m, es).value))
  {
    LifeOk(g, p.l);
    ReachApart(g, p.m, es);
    LinkedSince(g, p.m.k, Run(p.m, es).value.k, p.l);
  }

  // ----- What that gives -----

  /** What the mirror has for a live state machine is always a view of its round newer than every view it
    was given there, or a jump: the premise under which its runs are studied holds in every run of the two. */
  lemma DeliveriesAreNew(g: Genesis, ss: seq<Serving>, xs: seq<Move>)
    requires g.initialHeight > 0 && RunPair(g, ss, xs).Ok?
    requires var p := RunPair(g, ss, xs).value; p.l.mode.Live? && Output(p.m.k.sm).Send?
    ensures
      var p := RunPair(g, ss, xs).value;
      var vrv := Output(p.m.k.sm).vrv;
      && RoundSpec.Enabled(p.l, Delivered(p.m))
      && (vrv.Some? ==> Matches(vrv.value, p.l.h, p.l.r) && vrv.value.version > p.l.lastDelivered)
  {
    PairKeeps(g, ss, xs);
    DeliverReady(g, RunPair(g, ss, xs).value);
  }

  /** When the mirror has nothing for it, a live state machine on the voting or committing round holds the
    mirror's view of it, content included, unless it entered the round without the committed header. In the
    first round of all it may lack headers that did not fit. */
  lemma IdleMeansCurrent(g: Genesis, ss: seq<Serving>, xs: seq<Move>, v: View)
    requires g.initialHeight > 0 && RunPair(g, ss, xs).Ok?
    requires
      var p := RunPair(g, ss, xs).value;
      && p.l.mode.Live? && Output(p.m.k.sm).Idle? && !RoundInv.LacksHeader(p.l.entered)
      && v in [p.m.k.voting, p.m.k.committing] && Matches(v, p.l.h, p.l.r)
    ensures Holds(g, RunPair(g, ss, xs).value.l, v)
  {
    PairKeeps(g, ss, xs);
    var p := RunPair(g, ss, xs).value;
    LifeOk(g, p.l);
    ReachedOk(g, p.m);
  }

  /** A delivered view makes the state machine terminate as stale exactly when it entered the round without
    the committed header and the view's version does not exceed that of the view it still holds. */
  lemma StaleExactly(g: Genesis, ss: seq<Serving>, xs: seq<Move>, resp: seq<RoundSpec.Response>)
    requires g.initialHeight > 0 && RunPair(g, ss, xs).Ok?
    requires
      var p := RunPair(g, ss, xs).value;
      p.l.mode.Live? && Output(p.m.k.sm).Send? && Output(p.m.k.sm).vrv.Some?
    ensures
      var p := RunPair(g, ss, xs).value;
      var out := Output(p.m.k.sm);
      RoundSpec.ViewUpdate(p.l, out.vrv, out.jump, resp) == RoundSpec.Ok(RoundSpec.Done(p.l.(mode := RoundSpec.Terminated), true, resp))
      <==> RoundInv.LacksHeader(p.l.entered) && p.l.view.Some? && out.vrv.value.version <= p.l.view.value.version
  {
    PairKeeps(g, ss, xs);
    DeliveriesAreNew(g, ss, xs);
    var p := RunPair(g, ss, xs).value;
    var content, first, ts :| LifeRun(g, content, first, ts, p.l);
    RoundRuns.TerminatesExactly(ConfigOf(g, content, first), ts, Output(p.m.k.sm).vrv.value, Output(p.m.k.sm).jump, resp);
  }
}
