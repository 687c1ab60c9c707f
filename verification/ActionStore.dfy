/** The store of a validator's own actions, and what it lets a validator release over any number of
  restarts. */
module ActionStore {
  import opened Options
  import opened Quorum
  import opened Votes
  import opened Views

  /** The actions of one round. A header of height zero and an empty signature stand for "none yet". */
  datatype RoundActions = RoundActions(
    h: nat, r: nat,
    ph: ProposedHeader,
    prevoteTarget: Hash, prevoteSig: string,
    precommitTarget: Hash, precommitSig: string,
    pubKey: Option<Key>)

  type Actions = map<(nat, nat), RoundActions>

  datatype SaveError = DoubleAction(what: string) | PubKeyChanged(what: string, want: Key, got: Key)

  datatype SaveResult = Saved(ras: Actions) | Refused(error: SaveError)

  const NO_VALS := ValSet([], [])
  const NO_HEADER := ProposedHeader(Header("", 0, NO_VALS, NO_VALS, "", map[]), 0, "")
  const NO_ACTIONS := RoundActions(0, 0, NO_HEADER, "", "", "", "", None)

  function ActionsAt(ras: Actions, h: nat, r: nat): RoundActions {
    if (h, r) in ras then ras[(h, r)] else NO_ACTIONS
  }

  function SigOf(ra: RoundActions, kind: Kind): string {
    if kind.Prevote? then ra.prevoteSig else ra.precommitSig
  }

  function TargetOf(ra: RoundActions, kind: Kind): Hash {
    if kind.Prevote? then ra.prevoteTarget else ra.precommitTarget
  }

  function NameOf(kind: Kind): string {
    if kind.Prevote? then "prevote" else "precommit"
  }

  function SaveHeader(ras: Actions, ph: ProposedHeader): SaveResult {
    var ra := ActionsAt(ras, ph.header.height, ph.round);
    if ra.ph.header.height != 0 then Refused(DoubleAction("proposed block"))
    else Saved(ras[(ph.header.height, ph.round) := ra.(h := ph.header.height, r := ph.round, ph := ph)])
  }

  function SaveVote(ras: Actions, kind: Kind, key: Key, h: nat, r: nat, target: Hash, sig: string): SaveResult {
    var ra := ActionsAt(ras, h, r);
    if SigOf(ra, kind) != "" then Refused(DoubleAction(NameOf(kind)))
    else if ra.pubKey.Some? && ra.pubKey.value != key then Refused(PubKeyChanged(NameOf(kind), ra.pubKey.value, key))
    else
      var ra1 := ra.(h := h, r := r, pubKey := Some(key));
      Saved(ras[(h, r) := if kind.Prevote? then ra1.(prevoteTarget := target, prevoteSig := sig)
                          else ra1.(precommitTarget := target, precommitSig := sig)])
  }

  function ErrorOf(res: SaveResult): Option<SaveError> {
    if res.Refused? then Some(res.error) else None
  }

  function ActionsAfter(ras: Actions, res: SaveResult): Actions {
    if res.Saved? then res.ras else ras
  }

  class Store {
    var ras: Actions

    constructor ()
      ensures ras == map[]
    {
      ras := map[];
    }

    method SaveProposedHeaderAction(ph: ProposedHeader) returns (err: Option<SaveError>)
      modifies this
      ensures err == ErrorOf(SaveHeader(old(ras), ph)) && ras == ActionsAfter(old(ras), SaveHeader(old(ras), ph))
    {
      var hr := (ph.header.height, ph.round);
      var ra := NO_ACTIONS;
      if hr in ras {
        ra := ras[hr];
        if ra.ph.header.height != 0 {
          return Some(DoubleAction("proposed block"));
        }
      }
      ra := ra.(h := ph.header.height, r := ph.round);
      ra := ra.(ph := ph);
      ras := ras[hr := ra];
      err := None;
    }

    method SavePrevoteAction(pubKey: Key, h: nat, r: nat, target: Hash, sig: string) returns (err: Option<SaveError>)
      modifies this
      ensures var res := SaveVote(old(ras), Prevote, pubKey, h, r, target, sig);
              err == ErrorOf(res) && ras == ActionsAfter(old(ras), res)
    {
      var ra := NO_ACTIONS;
      if (h, r) in ras {
        ra := ras[(h, r)];
        if ra.prevoteSig != "" {
          return Some(DoubleAction("prevote"));
        }
        if ra.pubKey.Some? && ra.pubKey.value != pubKey {
          return Some(PubKeyChanged("prevote", ra.pubKey.value, pubKey));
        }
      }
      ra := ra.(h := h, r := r);
      ra := ra.(prevoteTarget := target, prevoteSig := sig, pubKey := Some(pubKey));
      ras := ras[(h, r) := ra];
      err := None;
    }

    method SavePrecommitAction(pubKey: Key, h: nat, r: nat, target: Hash, sig: string) returns (err: Option<SaveError>)
      modifies this
      ensures var res := SaveVote(old(ras), Precommit, pubKey, h, r, target, sig);
              err == ErrorOf(res) && ras == ActionsAfter(old(ras), res)
    {
      var ra := NO_ACTIONS;
      if (h, r) in ras {
        ra := ras[(h, r)];
        if ra.precommitSig != "" {
          return Some(DoubleAction("precommit"));
        }
        if ra.pubKey.Some? && ra.pubKey.value != pubKey {
          return Some(PubKeyChanged("precommit", ra.pubKey.value, pubKey));
        }
      }
      ra := ra.(h := h, r := r);
      ra := ra.(precommitTarget := target, precommitSig := sig, pubKey := Some(pubKey));
      ras := ras[(h, r) := ra];
      err := None;
    }
  }

  /** After a vote was saved, a second vote of that kind for that round gets through exactly when the
    first signature was empty and the key is the same. */
  lemma SecondVote(ras: Actions, kind: Kind, h: nat, r: nat, k1: Key, t1: Hash, s1: string, k2: Key, t2: Hash, s2: string)
    requires SaveVote(ras, kind, k1, h, r, t1, s1).Saved?
    ensures SaveVote(SaveVote(ras, kind, k1, h, r, t1, s1).ras, kind, k2, h, r, t2, s2).Saved? <==> s1 == "" && k1 == k2
  {
  }

  /** Nothing of this kind is on record for the round, and no other key is. */
  predicate CanVote(ras: Actions, kind: Kind, key: Key, h: nat, r: nat) {
    (h, r) in ras ==>
      && (if kind.Prevote? then ras[(h, r)].prevoteSig else ras[(h, r)].precommitSig) == ""
      && (ras[(h, r)].pubKey.Some? ==> ras[(h, r)].pubKey.value == key)
  }

  /** Only the record of this round may differ. */
  ghost predicate OtherRoundsSame(ras: Actions, ras': Actions, h: nat, r: nat) {
    forall hr :: hr != (h, r) ==> (hr in ras' <==> hr in ras) && (hr in ras ==> ras'[hr] == ras[hr])
  }

  /** A vote is saved exactly when no vote of its kind is on record for its round and no other key; the
    record then has this vote and key, and is otherwise what it was. The error tells which it was. */
  lemma VoteSavedIff(ras: Actions, kind: Kind, key: Key, h: nat, r: nat, target: Hash, sig: string)
    ensures SaveVote(ras, kind, key, h, r, target, sig).Saved? <==> CanVote(ras, kind, key, h, r)
    ensures
      var res := SaveVote(ras, kind, key, h, r, target, sig);
      res.Saved? ==>
        && OtherRoundsSame(ras, res.ras, h, r) && (h, r) in res.ras
        && var now, was := res.ras[(h, r)], if (h, r) in ras then ras[(h, r)] else NO_ACTIONS;
        && now.h == h && now.r == r && now.pubKey == Some(key) && now.ph == was.ph
        && (now.prevoteTarget, now.prevoteSig) == (if kind.Prevote? then (target, sig) else (was.prevoteTarget, was.prevoteSig))
        && (now.precommitTarget, now.precommitSig) == (if kind.Precommit? then (target, sig) else (was.precommitTarget, was.precommitSig))
    ensures
      var res := SaveVote(ras, kind, key, h, r, target, sig);
      res.Refused? ==>
        && (h, r) in ras
        && var was := ras[(h, r)];
        res.error == if (if kind.Prevote? then was.prevoteSig else was.precommitSig) != ""
                     then DoubleAction(if kind.Prevote? then "prevote" else "precommit")
                     else PubKeyChanged(if kind.Prevote? then "prevote" else "precommit", was.pubKey.value, key)
  {
  }

  /** A proposal is saved exactly when none is on record for its round, and changes nothing else. */
  lemma HeaderSavedIff(ras: Actions, ph: ProposedHeader)
    ensures
      var hr := (ph.header.height, ph.round);
      SaveHeader(ras, ph).Saved? <==> (hr in ras ==> ras[hr].ph.header.height == 0)
    ensures
      var res := SaveHeader(ras, ph);
      res.Saved? ==>
        && var hr := (ph.header.height, ph.round);
        && OtherRoundsSame(ras, res.ras, hr.0, hr.1) && hr in res.ras
        && var was := if hr in ras then ras[hr] else NO_ACTIONS;
        res.ras[hr] == was.(h := hr.0, r := hr.1, ph := ph)
    ensures SaveHeader(ras, ph).Refused? ==> SaveHeader(ras, ph).error == DoubleAction("proposed block")
  {
  }

  // ----- A validator over its lifetime -----

  /** What leaves the state machine through the outgoing actions channel. */
  datatype Release =
    | HeaderOut(ph: ProposedHeader)
    | VoteOut(kind: Kind, h: nat, r: nat, key: Key, target: Hash)

  /** A validator: its store, its current key and round, what it ever released, and how many actions it
    put in the channel of the current round entrance. */
  datatype Node = Node(ras: Actions, key: Key, h: nat, r: nat, released: seq<Release>, inChannel: nat)

  /** `Boot` starts a process: a stored header that the mirror does not have is sent again. A refused
    save stops the process. Signing comes before saving, releasing only after. */
  datatype Action =
    | Boot(key: Key, bh: nat, br: nat, mirrorHasHeader: bool)
    | EnterRound(h: nat, r: nat)
    | Propose(ph: ProposedHeader)
    | CastVote(kind: Kind, target: Hash, sig: string)

  const CHANNEL_SIZE := 3

  function NewNode(key: Key): Node {
    Node(map[], key, 0, 0, [], 0)
  }

  function Emit(n: Node, x: Release): Node {
    n.(released := n.released + [x], inChannel := n.inChannel + 1)
  }

  function Act(n: Node, a: Action): Node {
    match a
    case Boot(key, h, r, mirrorHasHeader) =>
      var n1 := n.(key := key, h := h, r := r, inChannel := 0);
      var ph := ActionsAt(n.ras, h, r).ph;
      if !mirrorHasHeader && ph.header.height != 0 then Emit(n1, HeaderOut(ph)) else n1
    case EnterRound(h, r) => n.(h := h, r := r, inChannel := 0)
    case Propose(ph) =>
      (match SaveHeader(n.ras, ph)
       case Refused(_) => n
       case Saved(ras) => Emit(n.(ras := ras), HeaderOut(ph)))
    case CastVote(kind, target, sig) =>
      (match SaveVote(n.ras, kind, n.key, n.h, n.r, target, sig)
       case Refused(_) => n
       case Saved(ras) => Emit(n.(ras := ras), VoteOut(kind, n.h, n.r, n.key, target)))
  }

  /** A proposal is for the current round, heights are positive and signatures are not empty. */
  predicate Proper(n: Node, a: Action) {
    match a
    case Propose(ph) => ph.header.height == n.h > 0 && ph.round == n.r
    case CastVote(_, _, sig) => sig != ""
    case _ => true
  }

  function ActAll(n: Node, acts: seq<Action>): Node {
    if |acts| == 0 then n else Act(ActAll(n, acts[..|acts| - 1]), acts[|acts| - 1])
  }

  /** With empty signatures, two prevotes of one round are released. */
  lemma EmptySignatureVotesTwice()
    ensures
      ActAll(NewNode(7), [EnterRound(1, 0), CastVote(Prevote, "a", ""), CastVote(Prevote, "b", "")]).released
      == [VoteOut(Prevote, 1, 0, 7, "a"), VoteOut(Prevote, 1, 0, 7, "b")]
  {
    var acts := [EnterRound(1, 0), CastVote(Prevote, "a", ""), CastVote(Prevote, "b", "")];
    var n1 := NewNode(7).(h := 1, r := 0);
    assert acts[..2] == [acts[0], acts[1]] && acts[..2][..1] == [acts[0]] && acts[..2][..1][..0] == [];
    assert ActAll(NewNode(7), [acts[0]]) == n1;
    var n2 := Act(n1, acts[1]);
    assert n2.released == [VoteOut(Prevote, 1, 0, 7, "a")];
    assert ActAll(NewNode(7), acts[..2]) == n2;
    assert Act(n2, acts[2]).released == n2.released + [VoteOut(Prevote, 1, 0, 7, "b")];
  }

  ghost predicate ProperRun(n: Node, acts: seq<Action>) {
    |acts| == 0 || (ProperRun(n, acts[..|acts| - 1]) && Proper(ActAll(n, acts[..|acts| - 1]), acts[|acts| - 1]))
  }

  /** The store remembers this release. */
  ghost predicate Remembered(ras: Actions, x: Release) {
    match x
    case HeaderOut(ph) => ph.header.height != 0 && ActionsAt(ras, ph.header.height, ph.round).ph == ph
    case VoteOut(kind, h, r, key, target) =>
      var ra := ActionsAt(ras, h, r);
      SigOf(ra, kind) != "" && TargetOf(ra, kind) == target && ra.pubKey == Some(key)
  }

  predicate SameVote(x: Release, y: Release) {
    x.VoteOut? && y.VoteOut? && x.kind == y.kind && x.h == y.h && x.r == y.r
  }

  /** How many actions of a round are on record. */
  function Recorded(ra: RoundActions): (c: nat)
    ensures c <= CHANNEL_SIZE
  {
    One(ra.ph.header.height != 0) + One(ra.prevoteSig != "") + One(ra.precommitSig != "")
  }

  ghost predicate NodeOk(n: Node) {
    && (forall i :: 0 <= i < |n.released| ==> Remembered(n.ras, n.released[i]))
    && (forall i, j :: 0 <= i < j < |n.released| ==> !SameVote(n.released[i], n.released[j]))
    && (forall h, r :: (h, r) in n.ras ==> var ph := n.ras[(h, r)].ph; ph == NO_HEADER || (ph.header.height == h && ph.round == r))
    && n.inChannel <= Recorded(ActionsAt(n.ras, n.h, n.r))
  }

  /** A successful save forgets nothing. */
  lemma SaveRemembers(n: Node, a: Action, x: Release)
    requires NodeOk(n) && Proper(n, a) && Remembered(n.ras, x)
    ensures Remembered(Act(n, a).ras, x)
  {
  }

  lemma ActKeeps(n: Node, a: Action)
    requires NodeOk(n) && Proper(n, a)
    ensures NodeOk(Act(n, a))
  {
    var n1 := Act(n, a);
    forall i | 0 <= i < |n1.released| ensures Remembered(n1.ras, n1.released[i]) {
      if i < |n.released| { SaveRemembers(n, a, n.released[i]); }
    }
    forall i, j | 0 <= i < j < |n1.released| ensures !SameVote(n1.released[i], n1.released[j]) {
      if j == |n.released| { assert Remembered(n.ras, n.released[i]); }
    }
  }

  lemma {:induction false} RunKeepsNode(key: Key, acts: seq<Action>)
    requires ProperRun(NewNode(key), acts)
    ensures NodeOk(ActAll(NewNode(key), acts))
  {
    if |acts| > 0 {
      RunKeepsNode(key, acts[..|acts| - 1]);
      ActKeeps(ActAll(NewNode(key), acts[..|acts| - 1]), acts[|acts| - 1]);
    }
  }

  /** Whatever a validator does, over any number of restarts and key changes, it releases at most one
    prevote and one precommit per height and round, both under one key, and no two different
    proposals; and the channel of a round entrance never holds more than its three slots. */
  lemma ReleasesOnce(key: Key, acts: seq<Action>, i: nat, j: nat)
    requires ProperRun(NewNode(key), acts)
    requires i < j < |ActAll(NewNode(key), acts).released|
    ensures
      var x, y := ActAll(NewNode(key), acts).released[i], ActAll(NewNode(key), acts).released[j];
      && !SameVote(x, y)
      && (x.VoteOut? && y.VoteOut? && x.h == y.h && x.r == y.r ==> x.key == y.key)
      && (x.HeaderOut? && y.HeaderOut? && x.ph.header.height == y.ph.header.height && x.ph.round == y.ph.round ==> x == y)
  {
    RunKeepsNode(key, acts);
    var n := ActAll(NewNode(key), acts);
    assert Remembered(n.ras, n.released[i]) && Remembered(n.ras, n.released[j]);
  }

  // ----- What is released -----

  /** A vote of the kind, or of any kind, was released for the round. */
  ghost predicate Voted(released: seq<Release>, kind: Kind, h: nat, r: nat) {
    exists i :: 0 <= i < |released| && released[i].VoteOut? && released[i].kind == kind && released[i].h == h && released[i].r == r
  }

  ghost predicate VotedUnder(released: seq<Release>, key: Key, h: nat, r: nat) {
    exists i :: 0 <= i < |released| && released[i].VoteOut? && released[i].key == key && released[i].h == h && released[i].r == r
  }

  ghost predicate ProposedIn(released: seq<Release>, h: nat, r: nat) {
    exists i :: 0 <= i < |released| && released[i].HeaderOut? && released[i].ph.header.height == h && released[i].ph.round == r
  }

  /** What is on record for a round was released. */
  ghost predicate RecordReleased(ra: RoundActions, released: seq<Release>, h: nat, r: nat) {
    && (ra.prevoteSig != "" ==> Voted(released, Prevote, h, r))
    && (ra.precommitSig != "" ==> Voted(released, Precommit, h, r))
    && (ra.pubKey.Some? ==> VotedUnder(released, ra.pubKey.value, h, r))
    && (ra.ph.header.height != 0 ==> ProposedIn(released, h, r))
  }

  ghost predicate AllReleased(n: Node) {
    forall h, r :: (h, r) in n.ras ==> RecordReleased(n.ras[(h, r)], n.released, h, r)
  }

  lemma ReleasedMore(ra: RoundActions, released: seq<Release>, x: Release, h: nat, r: nat)
    requires RecordReleased(ra, released, h, r)
    ensures RecordReleased(ra, released + [x], h, r)
  {
    var more := released + [x];
    assert forall i :: 0 <= i < |released| ==> more[i] == released[i];
  }

  lemma LastReleased(released: seq<Release>, x: Release)
    ensures
      match x
      case VoteOut(kind, h, r, key, _) => Voted(released + [x], kind, h, r) && VotedUnder(released + [x], key, h, r)
      case HeaderOut(ph) => ProposedIn(released + [x], ph.header.height, ph.round)
  {
    assert (released + [x])[|released|] == x;
  }

  lemma ActReleases(n: Node, a: Action)
    requires AllReleased(n) && Proper(n, a)
    ensures AllReleased(Act(n, a))
  {
    var n1 := Act(n, a);
    if n1.released != n.released {
      var x := n1.released[|n.released|];
      LastReleased(n.released, x);
      forall h, r | (h, r) in n1.ras ensures RecordReleased(n1.ras[(h, r)], n1.released, h, r) {
        if (h, r) in n.ras { ReleasedMore(n.ras[(h, r)], n.released, x, h, r); }
      }
    }
  }

  lemma {:induction false} RunReleases(key: Key, acts: seq<Action>)
    requires ProperRun(NewNode(key), acts)
    ensures AllReleased(ActAll(NewNode(key), acts))
  {
    if |acts| > 0 {
      RunReleases(key, acts[..|acts| - 1]);
      ActReleases(ActAll(NewNode(key), acts[..|acts| - 1]), acts[|acts| - 1]);
    }
  }

  /** Over a validator's lifetime a vote is released exactly when it is the first of its kind in its round
    and nothing was released there under another key. */
  lemma FirstVoteReleased(key: Key, acts: seq<Action>, kind: Kind, target: Hash, sig: string)
    requires ProperRun(NewNode(key), acts) && sig != ""
    ensures
      var n := ActAll(NewNode(key), acts);
      var n1 := Act(n, CastVote(kind, target, sig));
      var first := !Voted(n.released, kind, n.h, n.r) && forall k :: VotedUnder(n.released, k, n.h, n.r) ==> k == n.key;
      n1.released == n.released + if first then [VoteOut(kind, n.h, n.r, n.key, target)] else []
  {
    RunReleases(key, acts);
    RunKeepsNode(key, acts);
    var n := ActAll(NewNode(key), acts);
    VoteSavedIff(n.ras, kind, n.key, n.h, n.r, target, sig);
    forall i | 0 <= i < |n.released| ensures Remembered(n.ras, n.released[i]) {
    }
    assert n.released + [] == n.released;
  }

  /** ... and a proposal exactly when it is the first of its round. */
  lemma FirstProposalReleased(key: Key, acts: seq<Action>, ph: ProposedHeader)
    requires ProperRun(NewNode(key), acts) && Proper(ActAll(NewNode(key), acts), Propose(ph))
    ensures
      var n := ActAll(NewNode(key), acts);
      Act(n, Propose(ph)).released == n.released + if ProposedIn(n.released, n.h, n.r) then [] else [HeaderOut(ph)]
  {
    RunReleases(key, acts);
    RunKeepsNode(key, acts);
    var n := ActAll(NewNode(key), acts);
    forall i | 0 <= i < |n.released| ensures Remembered(n.ras, n.released[i]) {
    }
    HeaderSavedIff(n.ras, ph);
    assert n.released + [] == n.released;
  }

  /** A restart releases the proposal on record for its round, if the mirror does not have it, and nothing
    else. */
  lemma RestartReleases(key: Key, acts: seq<Action>, k: Key, h: nat, r: nat, mirrorHasHeader: bool)
    requires ProperRun(NewNode(key), acts)
    ensures
      var n := ActAll(NewNode(key), acts);
      var n1 := Act(n, Boot(k, h, r, mirrorHasHeader));
      && n1.ras == n.ras && n1.key == k && n1.h == h && n1.r == r
      && (if !mirrorHasHeader && ProposedIn(n.released, h, r) then
            |n1.released| == |n.released| + 1 && n1.released[..|n.released|] == n.released && n1.released[|n.released|] in n.released
            && n1.released[|n.released|].HeaderOut? && ProposedIn(n1.released[|n.released|..], h, r)
          else n1.released == n.released)
  {
    RunReleases(key, acts);
    RunKeepsNode(key, acts);
    var n := ActAll(NewNode(key), acts);
    var n1 := Act(n, Boot(k, h, r, mirrorHasHeader));
    forall i | 0 <= i < |n.released| ensures Remembered(n.ras, n.released[i]) {
    }
    if !mirrorHasHeader && ProposedIn(n.released, h, r) {
      var i :| 0 <= i < |n.released| && n.released[i].HeaderOut? && n.released[i].ph.header.height == h && n.released[i].ph.round == r;
      assert n1.released == n.released + [n.released[i]];
      assert n1.released[|n.released|..] == [n.released[i]];
      LastReleased([], n.released[i]);
      assert [] + [n.released[i]] == [n.released[i]];
    } else if (h, r) in n.ras && n.ras[(h, r)].ph.header.height != 0 {
      assert RecordReleased(n.ras[(h, r)], n.released, h, r);
    }
  }

  lemma ChannelNeverFull(key: Key, acts: seq<Action>)
    requires ProperRun(NewNode(key), acts)
    ensures ActAll(NewNode(key), acts).inChannel <= CHANNEL_SIZE
  {
    RunKeepsNode(key, acts);
  }
}
