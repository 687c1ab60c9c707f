/** The kernel's mutable state and the managers of what it sends out. Every method is tied to the
  kernel specification: the state it leaves is the specified function of the state it found. */
module KStates {
  import opened Options
  import opened Quorum
  import opened Votes
  import opened Views
  import Spec = KernelSpec

  /** The views to send to the local state machine. */
  class StateMachineViewManager {
    var h: nat
    var r: nat
    var key: Option<Key>
    var lastSentVersion: nat
    var jumpAhead: Option<View>
    var outgoingView: View
    var heightCommitted: bool
    ghost var delivered: seq<nat>

    ghost function Model(): Spec.SMViews
      reads this
    {
      Spec.SMViews(h, r, key, lastSentVersion, jumpAhead, outgoingView, heightCommitted, delivered)
    }

    constructor ()
      ensures Model() == Spec.SMViews(0, 0, None, 0, None, ZERO_VIEW, false, [])
    {
      h, r, key, lastSentVersion, jumpAhead, outgoingView := 0, 0, None, 0, None, ZERO_VIEW;
      heightCommitted, delivered := false, [];
    }

    method SetView(v: View)
      modifies this
      ensures Model() == old(Model()).(outgoing := v)
    {
      outgoingView := v;
    }

    method JumpToRound(v: View)
      modifies this
      ensures Model() == old(Model()).(jumpAhead := Some(v))
    {
      jumpAhead := Some(v);
    }

    method Output() returns (o: Spec.SMOutput)
      ensures o == Spec.Output(Model())
    {
      if outgoingView.h == h && outgoingView.r == r {
        var vrv, jump, sentVersion := None, None, 0;
        if jumpAhead.Some? {
          jump := jumpAhead;
          sentVersion := lastSentVersion;
        }
        if outgoingView.version > lastSentVersion {
          vrv := Some(outgoingView);
          sentVersion := outgoingView.version;
        }
        if sentVersion > 0 {
          return Spec.Send(vrv, jump, sentVersion);
        }
      }
      if jumpAhead.Some? && jumpAhead.value.h == h && jumpAhead.value.r > r {
        return Spec.Send(None, jumpAhead, lastSentVersion);
      }
      return Spec.Idle;
    }

    /** A new round entrance replaces the old one. */
    method Reset(eh: nat, er: nat, ekey: Option<Key>)
      modifies this
      ensures Model() == old(Model()).(h := eh, r := er, key := ekey, lastSent := 0, jumpAhead := None,
                                       heightCommitted := false, delivered := [])
    {
      h, r, key, heightCommitted := eh, er, ekey, false;
      lastSentVersion := 0;
      jumpAhead := None;
      delivered := [];
    }

    method MarkFirstSentVersion(version: nat)
      requires lastSentVersion == 0
      modifies this
      ensures Model() == old(Model()).(lastSent := version, delivered := old(delivered) + [version])
    {
      lastSentVersion := version;
      delivered := delivered + [version];
    }

    /** The output `o` was handed over. */
    method MarkSent(o: Spec.SMOutput)
      requires o == Spec.Output(Model()) && o.Send?
      modifies this
      ensures Model() == old(Model()).(
        jumpAhead := None, lastSent := o.sentVersion,
        delivered := if o.vrv.Some? then old(delivered) + [o.vrv.value.version] else old(delivered))
    {
      jumpAhead := None;
      lastSentVersion := o.sentVersion;
      delivered := if o.vrv.Some? then delivered + [o.vrv.value.version] else delivered;
    }
  }

  datatype GossipOutput = GossipOutput(committing: Option<View>, voting: Option<View>, nextRound: Option<View>, nilVoted: Option<View>)

  /** The views to send to the gossip strategy. */
  class GossipViewManager {
    var nilVotedRound: Option<View>
    var committing: Spec.Slot
    var voting: Spec.Slot
    var nextRound: Spec.Slot

    constructor ()
      ensures var slot := Spec.Slot(0, 0, 0, ZERO_VIEW, ZERO_VIEW);
              committing == slot && voting == slot && nextRound == slot && nilVotedRound == None
    {
      var slot := Spec.Slot(0, 0, 0, ZERO_VIEW, ZERO_VIEW);
      committing, voting, nextRound, nilVotedRound := slot, slot, slot, None;
    }

    /** The stamp last sent is that of the view. */
    static predicate Stamped(s: Spec.Slot) {
      (s.sentH, s.sentR, s.sentV) == (s.view.h, s.view.r, s.view.version)
    }

    function Fresh(s: Spec.Slot): Option<View> {
      if Spec.HasBeenSent(s) then None else Some(s.view)
    }

    method Output() returns (o: GossipOutput)
      ensures o == GossipOutput(Fresh(committing), Fresh(voting), Fresh(nextRound), nilVotedRound)
      ensures o.committing == if Stamped(committing) then None else Some(committing.view)
      ensures o.voting == if Stamped(voting) then None else Some(voting.view)
      ensures o.nextRound == if Stamped(nextRound) then None else Some(nextRound.view)
    {
      o := GossipOutput(None, None, None, None);
      if !Spec.HasBeenSent(committing) {
        o := o.(committing := Some(committing.view));
      }
      if !Spec.HasBeenSent(voting) {
        o := o.(voting := Some(voting.view));
      }
      if !Spec.HasBeenSent(nextRound) {
        o := o.(nextRound := Some(nextRound.view));
      }
      if nilVotedRound.Some? {
        o := o.(nilVoted := nilVotedRound);
      }
    }

    /** The output was handed over. The precondition follows from the kernel's invariant (KernelInv.SlotOk)
      and concerns only the history of what was sent. */
    method MarkSent(o: GossipOutput)
      requires o == GossipOutput(Fresh(committing), Fresh(voting), Fresh(nextRound), nilVotedRound)
      requires SlotConsistent(committing) && SlotConsistent(voting) && SlotConsistent(nextRound)
      modifies this
      ensures committing == Spec.SentSlot(old(committing))
      ensures voting == Spec.SentSlot(old(voting))
      ensures nextRound == Spec.SentSlot(old(nextRound))
      ensures nilVotedRound == None
    {
      if o.committing.Some? {
        committing := Spec.SentSlot(committing);
      }
      if o.voting.Some? {
        voting := Spec.SentSlot(voting);
      }
      if o.nextRound.Some? {
        nextRound := Spec.SentSlot(nextRound);
      }
      nilVotedRound := None;
    }
  }

  /** A slot whose stamp says "sent" really holds what was sent. */
  ghost predicate SlotConsistent(s: Spec.Slot) {
    Spec.HasBeenSent(s) ==> s.sent == s.view
  }

  class KState {
    const initialHeight: nat
    var committing: View
    var voting: View
    var nextRound: View
    var committingHeader: Option<Header>
    const sm: StateMachineViewManager
    const gossip: GossipViewManager
    ghost var log: seq<Spec.Commit>

    ghost function Model(): Spec.K
      reads this, sm, gossip
    {
      Spec.K(initialHeight, committing, voting, nextRound, committingHeader, sm.Model(),
             gossip.committing, gossip.voting, gossip.nextRound, gossip.nilVotedRound, log)
    }

    /** Loads the first voting view, when nothing was stored. */
    constructor (initialHeight: nat, vals: ValSet)
      ensures fresh(sm) && fresh(gossip)
      ensures Model() == Spec.InitialK(initialHeight, vals)
    {
      this.initialHeight := initialHeight;
      committing := ZERO_VIEW;
      voting := FreshView(initialHeight, 0, vals);
      nextRound := FreshView(initialHeight, 1, vals);
      committingHeader := None;
      sm := new StateMachineViewManager();
      gossip := new GossipViewManager();
      log := [];
      new;
      MarkVotingViewUpdated();
      MarkNextRoundViewUpdated();
    }

    method FindView(h: nat, r: nat) returns (f: Spec.FindResult)
      ensures f == Spec.FindView(Model(), h, r)
    {
      if h == voting.h {
        var vr := voting.r;
        if r == vr {
          return Spec.Found(Spec.VotingView);
        }
        if r == vr + 1 {
          return Spec.Found(Spec.NextRoundView);
        }
        if r < vr {
          return Spec.Orphaned;
        }
        return Spec.LaterRound;
      }
      if h == committing.h {
        var cr := committing.r;
        if r == cr {
          return Spec.Found(Spec.CommittingView);
        }
        if r < cr {
          return Spec.BeforeCommitting;
        }
      }
      if h < committing.h {
        return Spec.BeforeCommitting;
      }
      if h > voting.h {
        return Spec.Future;
      }
      return Spec.Unhandled;
    }

    method MarkCommittingViewUpdated()
      modifies this, sm, gossip
      ensures Model() == Spec.MarkCommitting(old(Model()))
    {
      committing := committing.(version := committing.version + 1);
      gossip.committing := gossip.committing.(view := committing);
      var smh, smr := sm.h, sm.r;
      if smh == committing.h && smr == committing.r {
        sm.SetView(committing);
      } else if smh < committing.h || (smh == committing.h && smr < committing.r) {
        sm.JumpToRound(committing);
      }
    }

    method MarkVotingViewUpdated()
      modifies this, sm, gossip
      ensures Model() == Spec.MarkVoting(old(Model()))
    {
      voting := voting.(version := voting.version + 1);
      gossip.voting := gossip.voting.(view := voting);
      if sm.h == voting.h && sm.r == voting.r {
        sm.SetView(voting);
      }
    }

    method MarkNextRoundViewUpdated()
      modifies this, gossip
      ensures Model() == Spec.MarkNextRound(old(Model()))
    {
      nextRound := nextRound.(version := nextRound.version + 1);
      gossip.nextRound := gossip.nextRound.(view := nextRound);
    }

    method MarkViewUpdated(id: Spec.ViewId)
      modifies this, sm, gossip
      ensures Model() == Spec.Mark(old(Model()), id)
    {
      match id {
        case CommittingView => MarkCommittingViewUpdated();
        case VotingView => MarkVotingViewUpdated();
        case NextRoundView => MarkNextRoundViewUpdated();
      }
    }

    method ShiftVotingToCommitting(votedHeader: Header)
      modifies this, sm, gossip
      ensures Model() == Spec.ShiftToCommitting(old(Model()), votedHeader)
    {
      var signalStateMachine := sm.h > 0 && sm.h == committing.h;

      committing := voting;
      MarkCommittingViewUpdated();

      var newHeight := voting.h + 1;
      var available := AvailablePower(votedHeader.nextVals.powers);
      voting := View(newHeight, 0, votedHeader.nextVals, [], EMPTY_BALLOT, EMPTY_BALLOT,
                     VoteSummary(available, EMPTY_TALLY, EMPTY_TALLY), 0);
      MarkVotingViewUpdated();

      nextRound := Reset(nextRound);
      nextRound := nextRound.(h := newHeight, r := 1, vals := votedHeader.nextVals);
      nextRound := nextRound.(summary := nextRound.summary.(available := voting.summary.available));
      MarkNextRoundViewUpdated();

      committingHeader := Some(votedHeader);
      if signalStateMachine {
        sm.heightCommitted := true;
      }
    }

    method AdvanceVotingRound()
      modifies this, sm, gossip
      ensures Model() == Spec.AdvanceRound(old(Model()))
    {
      gossip.nilVotedRound := Some(voting);
      IncrementVotingRound();
    }

    method JumpVotingRound()
      modifies this, sm, gossip
      ensures Model() == Spec.JumpRound(old(Model()))
    {
      IncrementVotingRound();
      if sm.h == voting.h && sm.r == voting.r - 1 {
        sm.JumpToRound(voting);
      }
    }

    method IncrementVotingRound()
      modifies this, sm, gossip
      ensures Model() == Spec.IncrementRound(old(Model()))
    {
      voting, nextRound := nextRound, voting;
      MarkVotingViewUpdated();
      nextRound := ResetForSameHeight(nextRound);
      nextRound := nextRound.(r := voting.r + 1);
      MarkNextRoundViewUpdated();
    }

    method GetView(id: Spec.ViewId) returns (v: View)
      ensures v == Spec.GetView(Model(), id)
    {
      match id {
        case CommittingView => v := committing;
        case VotingView => v := voting;
        case NextRoundView => v := nextRound;
      }
    }

    method SetView(id: Spec.ViewId, v: View)
      modifies this
      ensures Model() == Spec.SetView(old(Model()), id, v)
    {
      match id {
        case CommittingView => committing := v;
        case VotingView => voting := v;
        case NextRoundView => nextRound := v;
      }
    }
  }
}
