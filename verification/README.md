# Gordian engine: a verified model

This project models the parts of the Gordian consensus engine that decide which block is committed, and
proves properties of every run of the model. Gordian implements Tendermint (arXiv 1807.04938).

* **Mirror** (`Quorum`, `Votes`, `Views`, `KernelSpec`, `KernelInv`, `MirrorSystem`, `MirrorRuns`,
  `Claims`,
  `Thresholds`, `Contents`, `Jumps`, `Abandonment`, `Agreement`, `Signals`, `Scenarios`, `Shortfalls`; `KState`, `Kernel`). The kernel keeps three sliding views: committing, voting and
  next round. It applies votes by compare-and-swap on per-block versions, recomputes vote summaries, and shifts
  its views when thresholds are crossed. `KernelSpec` gives each atomic kernel step as a function of the state;
  `KState` and `Kernel` hold the engine's mutable state and handlers, each tied to its specification. `MirrorSystem`
  adds any number of concurrent proof handlers (look up, merge outside, submit), the local state machine and the
  outgoing channels. `MirrorRuns` is about whole runs, `Signals` about what runs tell the state machine and gossip
  besides views, `Claims` about the way from a peer's signatures to the signers in a view, `Thresholds`, `Contents` and
  `Jumps` about what votes, headers and lookups do, told by who signed for what, `Scenarios` and `Shortfalls` about single
  runs that go wrong, `Agreement` about a network of validators and mirrors.
* **Signature proofs** (`TreeShape`, `SigTreeSpec`, `SigTree`, `BlsProofSpec`, `BlsProof`, `SimpleProof`). The
  aggregating proof keeps an array-layout binary tree whose signatures cascade upwards; its sparse form lists
  the topmost signed nodes. The simple proof keeps pairs of signatures and keys.
* **Consensus state machine** (`ActionStore`, `RoundSpec`, `FirstStep`, `RoundInv`, `RoundSteps`, `RoundRuns`, `Entrances`,
  `Requests`, `Sending`, `Decisions`, `Pipeline`, `StateMachine`). Steps, timers, requests to the strategy, the store of own actions, and the two-height
  validator pipeline. `RoundSpec` gives each live event as a function of the round lifecycle; the class in
  `StateMachine` performs it on mutable fields. `Pipeline` relates it to the mirror.
* **Both together** (`Feeding`, `Joint`, `JointScenarios`). A mirror and its state machine with the messages between them,
  over unbuffered channels (`tm/tmengine/engine.go:51` and `:122`): round entrances with their answers, views and jumps. Every such run is a run of either, and what each assumes of the
  other is proved.
* **Transaction buffer** (`TxBuffer`) and **fixed tree** (`FixedTree`).

`dafny verify dfyconfig.toml` checks the whole project.

## Premises

* Sums of voting power fit in 64 bits, rounds stay below 2^32 - 1 and version counters do not wrap: the engine's
  additions are unchecked, the model uses unbounded integers.
* A panic is a stuck state (`Stuck`, `Panic`, or a method's `panicked`), and nothing is claimed beyond it.
* Signatures are unforgeable: a vote signature verifies exactly when it was released. Inside the mirror a proof is
  a list of keys and the indices that signed; how a proof encodes this is the subject of the proof modules.
* Keys and signatures of the tree are elements of abstract structures: aggregation of signatures is commutative,
  and aggregates of valid signatures are valid for the aggregate of their keys (the Aggregate operation, section
  2.8 of draft-irtf-cfrg-bls-signature-05). Key aggregation is associative where the order of aggregation matters.
  No aggregate equals the zero value that stands for "absent".
* Equal public key hashes mean equal key lists. Heights are positive.
* For the transaction buffer: `addTx` is a function, and the deleter removes exactly the listed transactions.

## Where the code does less than it promises

Each of these has a lemma with a failing input and one with the exact condition.

* Precommits backfilled into the committing view do not change the block's version, so a handler that looked the
  view up before still passes the version check and overwrites them. Nothing is lost exactly when the handler had
  or merged the backfilled signers itself (`MirrorRuns.BackfillIsOverwritten`); `Scenarios.AcceptedAndLost` is a run
  that loses one. The promise that no update is lost therefore excludes precommits of the committing view.
* When a round is entered from a view update with a majority for a block whose header is missing, `beginRoundLive`
  returns before it stores the view. The state machine then keeps the view of an earlier round and asks for a
  finalization again with every view that has the header (`RoundRuns.StaysBehind`). It takes a newer view for stale
  and terminates exactly when that view's version does not exceed the kept one's (`RoundRuns.TerminatesExactly`,
  `Joint.StaleExactly`); `JointScenarios.TerminationHappens` is a run from genesis in which it does.
* While a proposal is awaited, a view in which one target has a majority of the prevotes and less than a minority
  precommitted makes the state machine await precommits without asking the strategy for its own
  (`Decisions.UnaskedIff`: exactly such a view does). Nothing asks later in that round, so the validator never
  precommits in it (`Decisions.NeverAsked`). `JointScenarios.LeftUndecided` is a run in which this happens.
* A submission of which some updates apply and others do not stores the former without looking at any threshold, and
  so can leave one waiting: exactly when the stored votes reach it (`Thresholds.PartialSettlesIff`). So do precommits
  that bring all power into the next round at once, which voting then jumps to (`Thresholds.AdditionSettles`). Nothing
  else ever does (`Thresholds.NothingEverWaits`). `Shortfalls.ThirdIsLeftWaiting` is a run of the first kind, after which
  a retry finds nothing to submit, `Shortfalls.FullRoundIsLeftWaiting` a case of the second.
* A round in which the power for a decision is in, but split over targets, cannot be entered: the first step would be
  a delay, for which the engine panics, and exactly then it does (`Requests.EntryPanicsIff`,
  `Shortfalls.SplitEntryPanics`).
* A first vote of the local validator for a target in the committing round is filed over the voting height's
  validators: over the round's own exactly when both heights have the same keys (`Contents.LateVoteFiled`,
  `Shortfalls.LateVoteMisfiled`).
* A jump that the mirror sends can panic the state machine: exactly when it leads to another height, or when a view
  sent along with it already ends the round - a nil majority, or full participation without a majority once
  precommits are awaited - and so takes the state machine to the round of the jump or past it
  (`Signals.JumpRefusedIff`). `Scenarios.JumpToNextHeight` and `Scenarios.JumpToSameHeight` are runs of the mirror
  that send the two kinds.
* The signal that the height is committed panics exactly a state machine that has not reached the commit wait
  (`RoundRuns.HeightCommittedHandled`); the mirror sends it to one in `Scenarios.JumpToNextHeight`.
* The test for full participation counts a validator once per target it signed, so with an equivocator a round can be
  left while a majority for a block is still possible: exactly when the block's signers and the validators without
  any vote hold a majority together (`Abandonment.AbandonmentSafeIff`), as in
  `Abandonment.EquivocationBreaksAbandonment`.
* The tree accepts up to 65535 keys, but a sparse identifier has 16 bits: the round trip works exactly while every
  topmost node index is below 65536 (`BlsProofSpec.RoundTripIff`). That is always so up to 32768 keys, and beyond
  them never for a fully signed tree (`BlsProofSpec.FullTreeIff`, with a tree for every such number of keys in
  `BlsProofSpec.LargeTreeRefused`). Signatures are taken to bind their key and aggregates to be distinct.
* A signature valid under two keys is kept with the last one only, while both indices count as signed. The sparse form
  loses bits exactly when some key that signed made the last addition of no signature
  (`SimpleProofs.SharingLosesIff`), as in `SimpleProofs.SharedSignatureIsLost`.
* Pruning by value removes a kept transaction that equals an invalidated one. The rebased buffer replays to the
  current state, whatever transactions do, exactly when the transactions left to apply are distinct
  (`TxBuffer.ReplayableIffDistinct`); `TxBuffer.DuplicatesBreakReplay` has a buffer for which it does not.
* Every strategy is given the channel for proposals, but a proposal from one whose key is not among the validators
  asks a missing signer for its key, or blocks for good: a proposal is handled exactly when the state machine takes
  part (`RoundRuns.ProposalHandledIff`, `RoundRuns.BystandersProposalFails`).
* An empty signature does not count as recorded: a second vote is saved exactly after an empty signature under the
  same key (`ActionStore.SecondVote`), as in `ActionStore.EmptySignatureVotesTwice`.

## Model

| member | source | states |
|---|---|---|
| Quorum.ByzantineMajority | tm/tmconsensus/math.go:11-22 | the least power that exceeds two thirds |
| Quorum.ByzantineMinority | tm/tmconsensus/math.go:33-43 | the least power that reaches one third, never above the majority |
| Quorum.MajoritiesIntersect | tm/tmconsensus/math.go:11-43 | two majorities of one validator set share at least a Byzantine minority of its power |
| Quorum.MajorityExcludesRest | tm/tmconsensus/math.go:24-32 | voters who share no power with a majority cannot reach one |
| Votes.BlockPower | tm/tmconsensus/votesummary.go:75-83 | the pass over the set bits gives the power of the signers |
| Votes.TallyVotes | tm/tmconsensus/votesummary.go:66-122 | whatever the order of the pass, totals and block powers are those of the proofs and the most voted hash is the least hash of maximal power |
| Votes.TallyUnique | tm/tmconsensus/votesummary.go:25-29 | proofs and validators determine the summary, ties included |
| Votes.MostVotedIsMaximal | tm/tmconsensus/votesummary.go:84-92 | no hash has more power than the most voted one |
| Votes.LexMeaning | tm/tmconsensus/votesummary.go:84-92 | hashes are compared in dictionary order |
| Votes.AvailablePower | tm/tmconsensus/votesummary.go:54-59 | the available power is the total of the validators |
| KStates.StateMachineViewManager.SetView | tm/tmengine/internal/tmmirror/internal/tmi/statemachineviewmanager.go:60-62 | only the outgoing view changes |
| KStates.StateMachineViewManager.JumpToRound | tm/tmengine/internal/tmmirror/internal/tmi/statemachineviewmanager.go:64-67 | only the jump-ahead view changes |
| KStates.StateMachineViewManager.Output | tm/tmengine/internal/tmmirror/internal/tmi/statemachineviewmanager.go:72-130 | refines the specified output: a newer view of the entered round, a jump ahead, both or neither |
| KStates.StateMachineViewManager.Reset | tm/tmengine/internal/tmmirror/internal/tmi/statemachineviewmanager.go:170-174 | a new entrance forgets what was sent and any jump, and keeps the outgoing view |
| KStates.StateMachineViewManager.MarkFirstSentVersion | tm/tmengine/internal/tmmirror/internal/tmi/statemachineviewmanager.go:176-185 | the version given with the entrance counts as the first delivery |
| KStates.StateMachineViewManager.MarkSent | tm/tmengine/internal/tmmirror/internal/tmi/statemachineviewmanager.go:204-214 | the sent version is recorded and the jump is cleared |
| KStates.GossipViewManager.Output | tm/tmengine/internal/tmmirror/internal/tmi/gossipviewmanager.go:23-66 | exactly the unsent slots and a nil-voted round are offered |
| KStates.GossipViewManager.MarkSent | tm/tmengine/internal/tmmirror/internal/tmi/gossipviewmanager.go:77-92 | all three slots count as sent and the nil-voted round is cleared |
| KStates.KState.constructor | tm/tmengine/internal/tmmirror/internal/tmi/kernel.go:1966-2007 | the state before any step when nothing was stored |
| KStates.KState.FindView | tm/tmengine/internal/tmmirror/internal/tmi/kstate.go:51-93 | refines the specified lookup, case by case, its panic included |
| KStates.KState.MarkCommittingViewUpdated | tm/tmengine/internal/tmmirror/internal/tmi/kstate.go:98-113 | one new version, offered to gossip, and to the state machine as its view or as a jump |
| KStates.KState.MarkVotingViewUpdated | tm/tmengine/internal/tmmirror/internal/tmi/kstate.go:118-129 | one new version, offered to gossip, and to the state machine if it is on that round |
| KStates.KState.MarkNextRoundViewUpdated | tm/tmengine/internal/tmmirror/internal/tmi/kstate.go:134-142 | one new version, offered to gossip only |
| KStates.KState.MarkViewUpdated | tm/tmengine/internal/tmmirror/internal/tmi/kstate.go:144-155 | marks the view with the given identifier |
| KStates.KState.ShiftVotingToCommitting | tm/tmengine/internal/tmmirror/internal/tmi/kstate.go:166-235 | the in-place shift gives exactly the specified state |
| KStates.KState.AdvanceVotingRound | tm/tmengine/internal/tmmirror/internal/tmi/kstate.go:237-247 | the left round is kept for gossip and the views move one round on |
| KStates.KState.JumpVotingRound | tm/tmengine/internal/tmmirror/internal/tmi/kstate.go:249-267 | the views move one round on and a state machine left behind is told |
| KStates.KState.IncrementVotingRound | tm/tmengine/internal/tmmirror/internal/tmi/kstate.go:269-279 | swap and reset give exactly the specified state |
| KernelInv.TouchKeeps | tm/tmengine/internal/tmmirror/internal/tmi/kstate.go:98-155 | replacing a view's content with a fresh summary keeps every invariant |
| KernelInv.IncrementKeeps | tm/tmengine/internal/tmmirror/internal/tmi/kstate.go:269-279 | moving one round on keeps every invariant; the next round becomes the voting view |
| KernelInv.ShiftKeeps | tm/tmengine/internal/tmmirror/internal/tmi/kstate.go:166-235 | shifting to committing keeps every invariant; the voting view becomes the committing view |
| KernelInv.CheckVotingShiftKeeps | tm/tmengine/internal/tmmirror/internal/tmi/kernel.go:751-855 | the consequences of precommits keep every invariant |
| KernelInv.AddVotesKeeps | tm/tmengine/internal/tmmirror/internal/tmi/kernel.go:544-746 | adding votes, with the shifts it causes, keeps every invariant |
| KernelInv.AddHeaderKeeps | tm/tmengine/internal/tmmirror/internal/tmi/kernel.go:379-502 | adding a proposed header, with backfill and shift, keeps every invariant |
| KernelInv.EnterKeeps | tm/tmengine/internal/tmmirror/internal/tmi/kernel.go:1368-1408 | a later entrance of the state machine keeps every invariant |
| KernelInv.LocalVoteKeeps | tm/tmengine/internal/tmmirror/internal/tmi/kernel.go:1410-1562 | a vote of the local state machine keeps every invariant |
| Kernel.FindHeader | tm/tmengine/internal/tmmirror/internal/tmi/kernel.go:801-809 | the first proposed header with the hash |
| Kernel.CheckVotingPrecommitViewShift | tm/tmengine/internal/tmmirror/internal/tmi/kernel.go:751-855 | panics or leaves exactly the specified state |
| Kernel.CheckNextRoundPrecommitViewShift | tm/tmengine/internal/tmmirror/internal/tmi/kernel.go:877-919 | panics or leaves exactly the specified state |
| Kernel.CheckPrevoteViewShift | tm/tmengine/internal/tmmirror/internal/tmi/kernel.go:924-964 | panics or leaves exactly the specified state |
| Kernel.ApplyVoteUpdates | tm/tmengine/internal/tmmirror/internal/tmi/kernel.go:576-591 | whatever the order, exactly the updates whose version still holds are stored and bumped; the flags say whether all or any did |
| Kernel.AddPrevote | tm/tmengine/internal/tmmirror/internal/tmi/kernel.go:544-635 | panics, or leaves the specified state and gives the specified answer |
| Kernel.AddPrecommit | tm/tmengine/internal/tmmirror/internal/tmi/kernel.go:645-746 | panics, or leaves the specified state and gives the specified answer |
| Kernel.MergeCarried | tm/tmengine/internal/tmmirror/internal/tmi/kernel.go:454-469 | whatever the order, the carried precommits that verify are added and nothing else; an unknown block panics |
| Kernel.AddProposedHeader | tm/tmengine/internal/tmmirror/internal/tmi/kernel.go:379-502 | panics or leaves exactly the specified state |
| Kernel.HandleStateMachineRoundEntrance | tm/tmengine/internal/tmmirror/internal/tmi/kernel.go:1368-1408 | panics or leaves exactly the specified state |
| Kernel.HandleStateMachineVote | tm/tmengine/internal/tmmirror/internal/tmi/kernel.go:1435-1562 | panics or leaves exactly the specified state |
| Kernel.SendToStateMachine | tm/tmengine/internal/tmmirror/internal/tmi/statemachineviewmanager.go:204-214 | sending leaves exactly the specified state |
| Kernel.SendToGossip | tm/tmengine/internal/tmmirror/internal/tmi/gossipviewmanager.go:77-92 | sending leaves exactly the specified state |
| Kernel.CopySnapshotView | tm/tmengine/internal/tmmirror/internal/tmi/kernel.go:1110-1212 | the wanted parts are copied, and nothing of the reused destination remains |
| Kernel.SnapshotSuffices | tm/tmengine/internal/tmmirror/mirror.go:384-396 | from the fields it asks for, a handler computes the updates it would compute on the view itself |
| Kernel.GetSignaturesToAdd | tm/tmengine/internal/tmmirror/mirror.go:696-756 | per block exactly the claimed, valid, not yet held signers, and no block without any |
| Kernel.BuildVoteUpdates | tm/tmengine/internal/tmmirror/mirror.go:440-467 | the updates carry what verified, on top of the proof seen, with the version seen |
| MirrorSystem.StepOk | tm/tmengine/internal/tmmirror/mirror.go:398-522 | every step of kernel, handlers, state machine and channels keeps the invariants, keeps pending handlers harmless, and only moves on |
| MirrorRuns.RunKeeps | tm/tmengine/internal/tmmirror/internal/tmi/kernel.go:1368-1562 | the invariants hold at every point of every interleaving |
| MirrorRuns.NoLostVotes | tm/tmengine/internal/tmmirror/internal/tmi/kernel.go:576-614 | between any two points of a run, a live view's signers per block only grow |
| MirrorRuns.AcceptedIsStored | tm/tmengine/internal/tmmirror/mirror.go:496-500 | an accepted submission means every valid signature the handler merged is in the view |
| MirrorRuns.AcceptedStaysStored | tm/tmengine/internal/tmmirror/mirror.go:660-663 | and it is there at every later point at which the view is live |
| Claims.PreparedExactly | tm/tmengine/internal/tmmirror/mirror.go:696-756 | without reference to how they are picked: every good claim is held or in its block's update, and an update holds the old signers and good claims only |
| Claims.RunKeyed | tm/tmengine/internal/tmmirror/mirror.go:440-467 | in every reachable state the proofs of the open rounds, and the updates on their way there, are over those rounds' validators |
| Claims.OtherKeysRefused | tm/tmengine/internal/tmmirror/mirror.go:424-429 | votes over other keys than the view's are not listened to |
| Claims.ClaimsArrive | tm/tmengine/internal/tmmirror/mirror.go:384-500 | over any run: after a lookup and an accepted submission every valid claimed signature is in the view for as long as that is live |
| MirrorRuns.BackfillIsOverwritten | tm/tmengine/internal/tmmirror/internal/tmi/kernel.go:451-485 | for the committing view an accepted submission keeps backfilled precommits exactly when the handler had or merged them itself |
| Scenarios.AcceptedAndLost | tm/tmengine/internal/tmmirror/internal/tmi/kernel.go:451-485 | a run in which a backfilled precommit is lost to a submission that is told it was accepted |
| MirrorRuns.VotingOnlyAdvances | tm/tmengine/internal/tmmirror/internal/tmi/kstate.go:166-279 | voting never goes back, each change is strictly later, and the three views stay consecutive |
| MirrorRuns.FoundViewMatches | tm/tmengine/internal/tmmirror/internal/tmi/kstate.go:51-93 | a found view has exactly the height and round asked for |
| Contents.FindMeaning | tm/tmengine/internal/tmmirror/internal/tmi/kstate.go:51-93 | a round is found exactly when one of the three views is of it, and every other answer tells where it lies |
| Contents.NotFoundMeaning | tm/tmengine/internal/tmmirror/internal/tmi/kernel.go:544-575 | for a round without a view: votes are out of date exactly when it is over and else a panic; headers, lookups and local votes are dropped, or panic in a gap of the rounds |
| Contents.ApplyExactly | tm/tmengine/internal/tmmirror/internal/tmi/kernel.go:576-591 | an update whose version holds replaces its block's proof and raises the version by one; all else stays |
| Contents.AnswerMeaning | tm/tmengine/internal/tmmirror/internal/tmi/kernel.go:544-746 | accepted exactly when the round is found and every update's version holds |
| Contents.CommittingVotesStored | tm/tmengine/internal/tmmirror/internal/tmi/kernel.go:544-746 | votes of the committing round are stored there and move nothing |
| Contents.BackfillExactly | tm/tmengine/internal/tmmirror/internal/tmi/kernel.go:451-485 | exactly the carried precommits that verify are added to the committing view; it panics exactly for an unknown block |
| Contents.VotingHeader | tm/tmengine/internal/tmmirror/internal/tmi/kernel.go:379-502 | a header for the voting round is added unless its signature is known, its carried precommits with it, and it commits or ends the round exactly when the votes were waiting for it |
| Contents.OtherHeader | tm/tmengine/internal/tmmirror/internal/tmi/kernel.go:379-502 | a header for another round is added to its view, if there is one, and moves nothing |
| Contents.LocalVoteAdded | tm/tmengine/internal/tmmirror/internal/tmi/kernel.go:1435-1562 | a verified vote by the announced key is added to the voting round like any other and accepted; others are dropped |
| Contents.NextVoteDropped | tm/tmengine/internal/tmmirror/internal/tmi/kernel.go:1430-1448 | a local vote for the next round is dropped |
| Contents.LateVoteFiled | tm/tmengine/internal/tmmirror/internal/tmi/kernel.go:1435-1562 | a first vote for a target in the committing round is stored, over the committing round's keys exactly when the voting height has the same |
| Shortfalls.LateVoteMisfiled | tm/tmengine/internal/tmmirror/internal/tmi/kernel.go:1453-1461 | a run in which it is filed under the wrong validator |
| Contents.SentIsIdle | tm/tmengine/internal/tmmirror/internal/tmi/statemachineviewmanager.go:204-214 | after sending there is nothing to send |
| Contents.GossipSent | tm/tmengine/internal/tmmirror/internal/tmi/gossipviewmanager.go:77-92 | after sending all slots count as sent and the round that was left is no longer offered |
| Contents.EntranceMeaning | tm/tmengine/internal/tmmirror/internal/tmi/kernel.go:1368-1408 | which entrances panic, and what an entrance leaves |
| Thresholds.NextRoundVotesMove | tm/tmengine/internal/tmmirror/internal/tmi/kernel.go:877-964 | votes for the next round move voting there exactly when a third of the power voted in it, telling a state machine left behind; a majority of precommits is a panic |
| Thresholds.VotingPrecommitsMove | tm/tmengine/internal/tmmirror/internal/tmi/kernel.go:751-855 | precommits commit the block ahead exactly when it has a majority and its header is known, and end the round exactly when nil has one or all power is in without one |
| Thresholds.AdditionSettles | tm/tmengine/internal/tmmirror/internal/tmi/kernel.go:597-746 | a vote addition that applies as a whole leaves no reached threshold waiting, except by bringing all power into the next round at once |
| Thresholds.PartialSettlesIff | tm/tmengine/internal/tmmirror/internal/tmi/kernel.go:565-620 | one that applies in part leaves one waiting exactly when the stored votes reach it |
| Thresholds.NothingEverWaits | tm/tmengine/internal/tmmirror/internal/tmi/kernel.go:379-964 | over any run without those two, no reached threshold is ever left waiting |
| Shortfalls.ThirdIsLeftWaiting | tm/tmengine/internal/tmmirror/internal/tmi/kernel.go:612-634 | a run after which a third of the power has voted in the next round, voting stays, and a retry has nothing to submit |
| Shortfalls.FullRoundIsLeftWaiting | tm/tmengine/internal/tmmirror/internal/tmi/kernel.go:877-919 | votes after which voting is in a round that all power has given up |
| Jumps.LeftBehindIsTold | tm/tmengine/internal/tmmirror/internal/tmi/kstate.go:249-267 | a state machine whose round voting jumps away from has a waiting jump to the new voting view, and is sent it next |
| Jumps.WaitingJumpSent | tm/tmengine/internal/tmmirror/internal/tmi/statemachineviewmanager.go:72-130 | a waiting jump is what is sent next, except exactly when it leads to another height with no view of the round at hand |
| Jumps.ToldUntilSent | tm/tmengine/internal/tmmirror/internal/tmi/statemachineviewmanager.go:64-130 | over any run: from the jump on until it is sent or the next height is committed, the mirror is never idle and the jump is what it sends |
| Jumps.LiveIsTold | tm/tmengine/internal/tmmirror/internal/tmi/statemachineviewmanager.go:64-130 | in runs of mirror and state machine together: a waiting jump within the height leads ahead of the live state machine and is what it is sent next |
| MirrorRuns.SummariesAlwaysFresh | tm/tmengine/internal/tmmirror/internal/tmi/kernel.go:593-596 | the cached summaries of voting and next round equal recomputed ones in every reachable state |
| MirrorRuns.GossipIsExact | tm/tmengine/internal/tmmirror/internal/tmi/view.go:50-60 | each slot holds the current view, and counts as sent exactly when that very view was sent last |
| MirrorRuns.DeliveryIsOrderedAndComplete | tm/tmengine/internal/tmmirror/internal/tmi/statemachineviewmanager.go:72-130 | views reach the state machine for its entrance and with strictly growing versions; idle means it has the latest |
| Signals.SignalsAreTrue | tm/tmengine/internal/tmmirror/internal/tmi/kstate.go:166-247 | a state machine with a view is told of its height's commit exactly when the next height is committing; a nil-voted round shows the votes that allowed leaving it |
| Signals.JumpsLeadAhead | tm/tmengine/internal/tmmirror/internal/tmi/kstate.go:98-113 | in every reachable state, a view sent is of the round the state machine is on, and a jump sent along or alone leads strictly ahead of it |
| Signals.JumpRefusedIff | tm/tmengine/internal/tmstate/statemachine.go:755-829 | a view update with a jump panics exactly when the jump leads to another height, or the view sent along ends the round and takes the state machine to the round of the jump or past it |
| Signals.CommitCausesJump | tm/tmengine/internal/tmmirror/internal/tmi/kstate.go:107-113 | committing the next height under a state machine on the committing view sends it such a jump |
| Scenarios.JumpToNextHeight | tm/tmengine/internal/tmstate/statemachine.go:1784-1789 | a run whose next output panics a state machine that is slow for two heights, by its jump and by its commit signal |
| Scenarios.JumpToSameHeight | tm/tmengine/internal/tmstate/statemachine.go:1790-1795 | a run whose next output, a view with a jump within the height, panics the state machine, while the jump alone would not |
| Signals.ShiftSignals | tm/tmengine/internal/tmmirror/internal/tmi/kstate.go:166-235 | a shift signals exactly the state machine whose height it leaves behind |
| Abandonment.DisjointPowersAdd | tm/tmconsensus/votesummary.go:95-122 | when nobody signed twice the summed power is the power of the signers |
| Abandonment.AbandonmentIsSafe | tm/tmengine/internal/tmmirror/internal/tmi/kernel.go:756-798 | once a round is left, no extension with one target per validator gives a block of it a majority |
| Abandonment.AbandonmentSafeIff | tm/tmengine/internal/tmmirror/internal/tmi/kernel.go:756-798 | whoever signed twice: a round that is left stays without a majority for a block, however it is completed, exactly when the block's signers and those without a vote hold less than one |
| Abandonment.SingleTargetsSuffice | tm/tmengine/internal/tmmirror/internal/tmi/kernel.go:756-798 | where nobody signed twice that condition always holds |
| Abandonment.EquivocationBreaksAbandonment | tm/tmengine/internal/tmmirror/internal/tmi/kernel.go:767-770 | votes of three of four validators, one of them for two blocks, that make the kernel leave a round in which a block can still get a majority |
| ActionStore.Store.SaveProposedHeaderAction | tm/tmstore/tmmemstore/actionstore.go:29-45 | saves or refuses exactly as specified, and changes nothing else |
| ActionStore.Store.SavePrevoteAction | tm/tmstore/tmmemstore/actionstore.go:47-76 | saves or refuses exactly as specified, and changes nothing else |
| ActionStore.Store.SavePrecommitAction | tm/tmstore/tmmemstore/actionstore.go:78-107 | saves or refuses exactly as specified, and changes nothing else |
| ActionStore.VoteSavedIff | tm/tmstore/tmmemstore/actionstore.go:47-107 | for every store: a vote is saved exactly when none of its kind and no other key is on record for its round; then its target, signature and key are on record and all else is as it was |
| ActionStore.HeaderSavedIff | tm/tmstore/tmmemstore/actionstore.go:29-45 | for every store: a proposal is saved exactly when none is on record for its round, and nothing else changes |
| ActionStore.SecondVote | tm/tmstore/tmmemstore/actionstore.go:47-107 | a second vote is saved exactly when the first signature was empty and the key is the same |
| ActionStore.EmptySignatureVotesTwice | tm/tmstore/tmmemstore/actionstore.go:47-76 | a validator that releases two prevotes of one round |
| ActionStore.ReleasesOnce | tm/tmengine/internal/tmstate/statemachine.go:1144-1178 | over any actions, restarts and key changes: one prevote and one precommit per height and round, under one key, and one proposal |
| ActionStore.FirstVoteReleased | tm/tmengine/internal/tmstate/statemachine.go:1144-1276 | over any lifetime: a vote is released exactly when it is the first of its kind in its round and nothing was released there under another key |
| ActionStore.FirstProposalReleased | tm/tmengine/internal/tmstate/statemachine.go:1323-1378 | over any lifetime: a proposal is released exactly when it is the first of its round |
| ActionStore.RestartReleases | tm/tmengine/internal/tmstate/statemachine.go:378-405 | a restart releases exactly the proposal on record that the mirror lacks |
| ActionStore.ChannelNeverFull | tm/tmengine/internal/tmstate/statemachine.go:1367-1375 | an entrance's three-slot channel never gets a fourth action |
| Agreement.CommitRecordOk | tm/tmengine/internal/tmmirror/internal/tmi/kernel.go:783-835 | the kernel commits only a block for which a majority signed |
| Agreement.StepBacked | tm/tmengine/internal/tmmirror/internal/tmi/kernel.go:645-855 | every step keeps every counted precommit backed by a released signature |
| Agreement.DisagreementNeedsEquivocators | tm/tmengine/internal/tmmirror/internal/tmi/kernel.go:645-855 | two different commits at one height and round expose faulty double signers of at least a Byzantine minority |
| Agreement.NoDisagreement | tm/tmengine/internal/tmstate/statemachine.go:1236-1275 | while the faulty hold less than that, no two mirrors commit different blocks at one height and round |
| Agreement.CommitsInOrder | tm/tmengine/internal/tmmirror/internal/tmi/kstate.go:176-214 | a mirror commits its heights in order, each once, each on a majority |
| SigTree.AggregateLayers | gcrypto/gblsminsig/internal/sigtree/tree.go:66-82 | filling the key array layer by layer gives the padded key tree |
| SigTreeSpec.KeyIsAggregate | gcrypto/gblsminsig/internal/sigtree/tree.go:33-85 | each node's key is the ordered aggregate of exactly the real keys beneath it |
| SigTreeSpec.KeyedIffRealLeaf | gcrypto/gblsminsig/internal/sigtree/tree.go:320-337 | a node has a key exactly when a real leaf lies beneath it |
| SigTreeSpec.AddSigSound | gcrypto/gblsminsig/internal/sigtree/tree.go:129-225 | a valid signature and all it completes, padding included, are valid for their own keys |
| SigTreeSpec.AddSigCovered | gcrypto/gblsminsig/internal/sigtree/tree.go:129-225 | an addition covers exactly the real leaves beneath it, whatever it completes |
| SigTreeSpec.AddSigUpClosed | gcrypto/gblsminsig/internal/sigtree/tree.go:129-225 | an addition leaves no complete pair without its parent |
| SigTreeSpec.AnyAdditions | gcrypto/gblsminsig/internal/sigtree/tree.go:129-225 | after any additions: signers are the real leaves under an added node, upward closed, valid if the added were |
| SigTree.Tree.constructor | gcrypto/gblsminsig/internal/sigtree/tree.go:33-85 | a valid empty tree over the given keys |
| SigTree.Tree.Derive | gcrypto/gblsminsig/internal/sigtree/tree.go:307-318 | same keys, no signatures |
| SigTree.Tree.Clone | gcrypto/gblsminsig/internal/sigtree/tree.go:294-305 | same keys and signatures in an array of its own |
| SigTree.Tree.Get | gcrypto/gblsminsig/internal/sigtree/tree.go:115-120 | what is stored at an index, if it is one |
| SigTree.Tree.Climb | gcrypto/gblsminsig/internal/sigtree/tree.go:129-225 | the climbing loop ends and stores what the recursive specification stores |
| SigTree.Tree.AddSignature | gcrypto/gblsminsig/internal/sigtree/tree.go:129-225 | the bits grow by exactly the real leaves beneath the index, and the tree stays valid |
| SigTree.DoubleSkips | gcrypto/gblsminsig/internal/sigtree/tree.go:265-269 | doubling the skip table in place loses no entry |
| SigTree.Tree.ScanRow | gcrypto/gblsminsig/internal/sigtree/tree.go:240-286 | one row lists its topmost nodes and marks what is covered |
| SigTree.Tree.SparseIndices | gcrypto/gblsminsig/internal/sigtree/tree.go:227-286 | appends the topmost signed nodes, each once |
| SigTreeSpec.TopmostDisjoint | gcrypto/gblsminsig/internal/sigtree/tree.go:227-286 | topmost nodes are never above one another and their leaf ranges are disjoint |
| BlsProofSpec.TopmostStandForAll | gcrypto/gblsminsig/internal/sigtree/tree.go:227-286 | together they cover exactly the signers |
| BlsProofSpec.MergeIsUnion | gcrypto/gblsminsig/signatureproof.go:205-263 | merging what another tree over the same keys sends gives the union of the signers |
| BlsProofSpec.MergeCovers | gcrypto/gblsminsig/signatureproof.go:205-263 | whatever is merged: the signers are those before and the leaves under a valid entry |
| BlsProofSpec.AllValidIff | gcrypto/gblsminsig/signatureproof.go:205-263 | with unique signatures, all is reported valid exactly when every entry names a node and is valid there |
| BlsProofSpec.RoundTrip | gcrypto/gblsminsig/signatureproof.go:205-298 | merging a proof's sparse form into a derived proof is all valid and restores the signers |
| BlsProofSpec.SmallTreesFit | gcrypto/gblsminsig/signatureproof.go:281-298 | with at most 32768 keys every node index fits in the identifier |
| BlsProofSpec.RoundTripIff | gcrypto/gblsminsig/signatureproof.go:205-298 | it is all valid exactly when every topmost index is below 65536 |
| BlsProofSpec.FullTreeIff | gcrypto/gblsminsig/signatureproof.go:205-298 | when everybody signed, it is all valid exactly for at most 32768 keys |
| BlsProofSpec.LargeTreeRefused | gcrypto/gblsminsig/signatureproof.go:281-298 | for every number of keys above that, a fully signed tree whose sparse form is refused |
| BlsProof.SignatureProof.constructor | gcrypto/gblsminsig/signatureproof.go:55-76 | a valid empty proof |
| BlsProof.SignatureProof.Derive | gcrypto/gblsminsig/signatureproof.go:309-317 | same message and keys, no signatures |
| BlsProof.SignatureProof.AddSignature | gcrypto/gblsminsig/signatureproof.go:93-133 | which error each failure gives, no change on error, and the leaves gained on success |
| BlsProof.SignatureProof.MergeSparse | gcrypto/gblsminsig/signatureproof.go:205-263 | signatures only grow, as the recursive specification says; the flags tell whether all were valid and any were new |
| BlsProof.SignatureProof.AsSparse | gcrypto/gblsminsig/signatureproof.go:281-298 | the topmost signatures, each under its encoded index |
| BlsProof.SignatureProof.HasSparseKeyID | gcrypto/gblsminsig/signatureproof.go:269-279 | valid exactly for node indices, held exactly when signed |
| BlsProof.SignatureProof.Merge | gcrypto/gblsminsig/signatureproof.go:151-203 | the signers become the union; increased and strict superset mean what they say; valid exactly when no held signature differs |
| BlsProof.SparseRoundTrip | gcrypto/gblsminsig/signatureproof.go:205-317 | derive, list and merge on the objects themselves restore the signers, up to 32768 keys |
| SimpleProofs.SignatureProof.constructor | gcrypto/simplecommonmessagesignatureproof.go:45-63 | a valid empty proof whose index map gives the last index of each key |
| SimpleProofs.SignatureProof.AddSignature | gcrypto/simplecommonmessagesignatureproof.go:73-85 | unknown key, invalid signature, or the pair stored and its index set |
| SimpleProofs.SignatureProof.Merge | gcrypto/simplecommonmessagesignatureproof.go:107-151 | whatever the order, exactly the new and valid signatures and their indices are gained, and the flags say so |
| SimpleProofs.SignatureProof.Derive | gcrypto/simplecommonmessagesignatureproof.go:169-179 | same message and keys, no signatures |
| SimpleProofs.SignatureProof.AsSparse | gcrypto/simplecommonmessagesignatureproof.go:185-210 | every stored signature once, under its key's index, in identifier order |
| SimpleProofs.SignatureProof.MergeSparse | gcrypto/simplecommonmessagesignatureproof.go:212-253 | entries that verify are added, the others make the merge not all valid; longer identifiers are read by their first two bytes, shorter ones panic |
| SimpleProofs.SignatureProof.HasSparseKeyID | gcrypto/simplecommonmessagesignatureproof.go:255-272 | valid exactly for two-byte identifiers of indices in range, held exactly when set |
| SimpleProofs.AddingMeans | gcrypto/simplecommonmessagesignatureproof.go:73-85 | exactly a valid signature of a candidate key is stored, with its key's last index; the answer tells which failed |
| SimpleProofs.MergingMeans | gcrypto/simplecommonmessagesignatureproof.go:212-253 | all is valid exactly when every entry is; exactly the good entries count, set their key's index and keep their signature |
| SimpleProofs.MergedIsUnion | gcrypto/simplecommonmessagesignatureproof.go:107-151 | merging two sane proofs gives the union of their signatures, all valid exactly when none is held under different keys |
| SimpleProofs.RoundTrip | gcrypto/simplecommonmessagesignatureproof.go:185-253 | with at most 65536 distinct keys and no signature valid under two, whatever was added is restored bit by bit |
| SimpleProofs.RoundTripIff | gcrypto/simplecommonmessagesignatureproof.go:189-191 | the owners of the stored signatures are restored exactly when their indices fit in 16 bits |
| SimpleProofs.RestoredIff | gcrypto/simplecommonmessagesignatureproof.go:185-253 | the sparse form restores the bits exactly when every set bit owns a stored signature |
| SimpleProofs.SharingLosesIff | gcrypto/simplecommonmessagesignatureproof.go:73-85 | after any additions, exactly when every key that signed made the last addition of some signature |
| SimpleProofs.SharedSignatureIsLost | gcrypto/simplecommonmessagesignatureproof.go:82-84 | one signature added under two keys, for which the first key's bit is lost |
| SimpleProofs.SparseRoundTrip | gcrypto/simplecommonmessagesignatureproof.go:169-253 | derive, list and merge on the objects themselves restore the bits |
| RoundRuns.StepKeeps | tm/tmengine/internal/tmstate/statemachine.go:214-305 | every live event keeps the invariants and moves height, round and step forward |
| RoundRuns.StepsOnlyAdvance | tm/tmengine/internal/tmstate/statemachine.go:755-1234 | over any stretch of a run (height, round, step) never decreases, and no finalization or request is taken back |
| RoundRuns.RequestsAreSound | tm/tmengine/internal/tmstate/statemachine.go:880-917 | a precommit is decided at most once per round; every request has a channel for its answer; timers start only when none is outstanding |
| RoundRuns.TimersAreExact | tm/tmengine/internal/tmstate/statemachine.go:1471-1554 | a timer is outstanding exactly in the four timed steps and is that step's, so no elapse is unexpected |
| RoundRuns.HeightCommittedHandled | tm/tmengine/internal/tmstate/statemachine.go:309-344 | in which steps the signal panics, ends the commit wait, or enters the next height |
| Requests.ViewsAreAnswered | tm/tmengine/internal/tmstate/statemachine.go:755-1321 | in any run and step: a view ends the round exactly as its votes say, or leads to the step and the requests its votes ask for |
| Requests.EntryAsks | tm/tmengine/internal/tmstate/statemachine.go:454-551 | the same for the view with which a round is entered |
| Requests.EntryPanicsIff | tm/tmengine/internal/tmstate/statemachine.go:461-538 | a round cannot be entered exactly when the power for a decision is in but split |
| Shortfalls.SplitEntryPanics | tm/tmengine/internal/tmstate/statemachine.go:461-538 | votes in the mirror for which that happens |
| Requests.TimeoutAsks | tm/tmengine/internal/tmstate/statemachine.go:1471-1554 | an elapsed proposal timer asks once to choose among exactly the fitting headers, an elapsed prevote delay for the precommit |
| Requests.DataAsks | tm/tmengine/internal/tmstate/statemachine.go:1561-1641 | needed data of the current round makes the strategy consider the fitting headers, until it has prevoted |
| Requests.VotesAskNothing | tm/tmengine/internal/tmstate/statemachine.go:1144-1276 | the strategy's votes ask for nothing, close their channel, and a prevote ends the wait for a proposal |
| Requests.AnswersMeaning | tm/tmengine/internal/tmstate/statemachine.go:1696-1776 | what each of the mirror's answers to an entrance makes of the state machine |
| Requests.ForeignViewIgnored | tm/tmengine/internal/tmstate/statemachine.go:755-780 | a view of another round changes nothing |
| Requests.FailuresHalt | tm/tmengine/internal/tmstate/statemachine.go:1144-1378 | an own action that could not be recorded ends the event loop with nothing sent |
| Requests.FinalizationMeaning | tm/tmengine/internal/tmstate/statemachine.go:1416-1469 | which finalizations panic, are refused, are stored, and begin the next height |
| Requests.FirstViewFiltered | tm/tmengine/internal/tmstate/statemachine.go:407-447 | the first view is kept without the headers that do not fit |
| Requests.FitsIff | tm/tmengine/internal/tmstate/statemachine.go:1810-1835 | over any run: a header fits exactly when it names the application state and validators finalized one and two heights before |
| Requests.FittingExactly | tm/tmengine/internal/tmstate/statemachine.go:1810-1835 | the filter keeps all headers that fit, no others, in order |
| Requests.ParticipatesIff | tm/tmengine/internal/tmstate/statemachine.go:1839-1850 | over any run: a validator takes part exactly when its signer's key is among the validators finalized two heights before |
| Sending.VotesAreSent | tm/tmengine/internal/tmstate/statemachine.go:1144-1276 | over any run: a participant's saved vote is sent, one action in its channel, and a bystander's is not |
| Sending.EveryActionSent | tm/tmengine/internal/tmstate/statemachine.go:1144-1378 | over any run: the entrance's channel holds exactly as many actions as were recorded since |
| RoundRuns.AnswersNeverBlock | tm/tmengine/internal/tmstate/statemachine.go:1144-1276 | handling the strategy's votes and data arrivals never cancels a missing timer and never blocks on the action channel |
| RoundRuns.ProposalHandledIff | tm/tmengine/internal/tmstate/statemachine.go:1323-1378 | a saved proposal is handled exactly when the state machine takes part in the height |
| RoundRuns.BystandersProposalFails | tm/tmengine/internal/tmstate/statemachine.go:1350-1375 | a state machine without a signer, and one whose key is not in force, that cannot handle a proposal |
| RoundRuns.ValidatorPipeline | tm/tmengine/internal/tmstate/internal/tsi/roundlifecycle.go:126-139 | in force is the set finalized two heights below, next the one just below, genesis before; exactly the past heights are finalized |
| RoundRuns.FittingHeaderNamesNextVals | tm/tmengine/internal/tmstate/statemachine.go:1810-1835 | a header that passes the filter names as next validators those in force at the next height |
| RoundRuns.ViewIsCurrent | tm/tmengine/internal/tmstate/statemachine.go:509-538 | the kept view is the latest of the current round exactly when the round was not entered without the committed header |
| RoundRuns.TerminatesExactly | tm/tmengine/internal/tmstate/statemachine.go:781-797 | a newer view ends the state machine as stale exactly after such an entrance and with a version the kept view had reached |
| JointScenarios.TerminationHappens | tm/tmengine/internal/tmstate/statemachine.go:521-525 | a run of mirror and state machine from genesis, with what the mirror sends in it, in which that happens |
| Decisions.UnaskedIff | tm/tmengine/internal/tmstate/statemachine.go:928-972 | in any run, exactly a view with a prevote majority for one target, few precommits and no jump, while a proposal is awaited, leads to awaiting precommits unasked |
| Decisions.NeverAsked | tm/tmengine/internal/tmstate/statemachine.go:1192-1234 | from then on, over any run, no precommit decision is asked for in that round, and none can come |
| JointScenarios.LeftUndecided | tm/tmengine/internal/tmstate/statemachine.go:950-972 | a run of mirror and state machine in which a participating validator is left so |
| Feeding.StepFed | tm/tmengine/internal/tmmirror/internal/tmi/kstate.go:98-155 | between messages the mirror leaves the entrance alone, and the view it feeds changes only together with a newer version |
| Joint.PairKeeps | tm/tmengine/internal/tmstate/statemachine.go:755-829 | every run of mirror and state machine together is a run of each, in which a live state machine is where the mirror believes it to be, was delivered what the mirror counts as sent, and holds it |
| Joint.DeliveriesAreNew | tm/tmengine/internal/tmmirror/internal/tmi/statemachineviewmanager.go:72-130 | in every such run, what the mirror sends a live state machine is of its round and newer than all it was given there |
| Joint.IdleMeansCurrent | tm/tmengine/internal/tmmirror/internal/tmi/statemachineviewmanager.go:72-130 | in every such run, with nothing to send, the state machine holds the mirror's view of its round, content included, unless it entered the round without the committed header |
| Joint.StaleExactly | tm/tmengine/internal/tmstate/statemachine.go:781-797 | in every such run, a sent view ends the state machine as stale exactly after such an entrance and with a version the kept view had reached |
| RoundRuns.StaysBehind | tm/tmengine/internal/tmstate/statemachine.go:1278-1321 | after such an entrance the kept view never moves within the round, and each view with the header asks for a finalization again |
| Pipeline.VotingValsNamed | tm/tmengine/internal/tmmirror/internal/tmi/kernel.go:830-835 | the mirror's voting validators are those the last committed header names |
| Pipeline.VotingValsAreCurrent | tm/tmengine/internal/tmstate/statemachine.go:1643-1665 | if the committed header passed the filter, they are those in force in the state machine at that height |
| StateMachines.RoundLifecycle.Reset | tm/tmengine/internal/tmstate/internal/tsi/roundlifecycle.go:79-110 | a round starts with no timer and all channels; validators, view and finalization stay |
| StateMachines.RoundLifecycle.MarkCatchingUp | tm/tmengine/internal/tmstate/internal/tsi/roundlifecycle.go:115-120 | only the three action channels go |
| StateMachines.RoundLifecycle.CycleFinalization | tm/tmengine/internal/tmstate/internal/tsi/roundlifecycle.go:128-139 | the four validator sets move one place in parallel |
| StateMachines.FinalizationStore.SaveFinalization | tm/tmstore/tmmemstore/finalizationstore.go:31-53 | a height is stored once and never overwritten |
| FirstStep.StepMeaning | tm/tmengine/internal/tmstate/internal/tsi/step.go:70-106 | the first step of a round in terms of who voted: commit wait exactly when some target's signers hold a majority of precommits, and likewise for the other steps |
| FirstStep.MoreVotesNoEarlier | tm/tmengine/internal/tmstate/internal/tsi/step.go:70-106 | with more votes a round never begins at an earlier step |
| StateMachines.StateMachine.RejectMismatchedProposedHeaders | tm/tmengine/internal/tmstate/statemachine.go:1810-1835 | the loop keeps exactly the fitting headers, in order |
| StateMachines.StateMachine.IsParticipating | tm/tmengine/internal/tmstate/statemachine.go:1839-1850 | whether the signer's key is in force |
| StateMachines.StateMachine.BeginCommit | tm/tmengine/internal/tmstate/statemachine.go:1381-1414 | the specified state, and whether the header was there |
| StateMachines.StateMachine.BeginRoundLive | tm/tmengine/internal/tmstate/statemachine.go:454-551 | panics, or leaves the specified state with the same result and requests |
| StateMachines.StateMachine.Advance | tm/tmengine/internal/tmstate/statemachine.go:1696-1776 | panics, or leaves the specified state with the same result and requests |
| StateMachines.StateMachine.AdvanceRound | tm/tmengine/internal/tmstate/statemachine.go:1667-1691 | panics, or leaves the specified state with the same result and requests |
| StateMachines.StateMachine.AdvanceHeight | tm/tmengine/internal/tmstate/statemachine.go:1643-1665 | panics, or leaves the specified state with the same result and requests |
| StateMachines.StateMachine.HandleProposalViewUpdate | tm/tmengine/internal/tmstate/statemachine.go:833-1050 | panics, or leaves the specified state with the same result and requests |
| StateMachines.StateMachine.HandlePrevoteViewUpdate | tm/tmengine/internal/tmstate/statemachine.go:1054-1142 | panics, or leaves the specified state with the same result and requests |
| StateMachines.StateMachine.HandlePrecommitViewUpdate | tm/tmengine/internal/tmstate/statemachine.go:1192-1234 | panics, or leaves the specified state with the same result and requests |
| StateMachines.StateMachine.HandleCommitWaitViewUpdate | tm/tmengine/internal/tmstate/statemachine.go:1278-1321 | panics, or leaves the specified state with the same result and requests |
| StateMachines.StateMachine.HandleViewUpdate | tm/tmengine/internal/tmstate/statemachine.go:755-829 | panics, or leaves the specified state with the same result and requests |
| StateMachines.StateMachine.HandleJumpAhead | tm/tmengine/internal/tmstate/statemachine.go:1778-1805 | panics, or leaves the specified state with the same result and requests |
| StateMachines.StateMachine.RecordProposedHeader | tm/tmengine/internal/tmstate/statemachine.go:1323-1378 | panics, or leaves the specified state with the same result and requests |
| StateMachines.StateMachine.RecordPrevote | tm/tmengine/internal/tmstate/statemachine.go:1144-1190 | panics, or leaves the specified state with the same result and requests |
| StateMachines.StateMachine.RecordPrecommit | tm/tmengine/internal/tmstate/statemachine.go:1236-1276 | panics, or leaves the specified state with the same result and requests |
| StateMachines.StateMachine.HandleFinalization | tm/tmengine/internal/tmstate/statemachine.go:1416-1469 | panics, or leaves the specified state with the same result and requests |
| StateMachines.StateMachine.HandleTimerElapsed | tm/tmengine/internal/tmstate/statemachine.go:1471-1554 | panics, or leaves the specified state with the same result and requests |
| StateMachines.StateMachine.HandleHeightCommitted | tm/tmengine/internal/tmstate/statemachine.go:309-344 | panics, or leaves the specified state with the same result and requests |
| StateMachines.StateMachine.HandleBlockDataArrival | tm/tmengine/internal/tmstate/statemachine.go:1561-1641 | panics, or leaves the specified state with the same result and requests |
| StateMachines.StateMachine.HandleLiveEvent | tm/tmengine/internal/tmstate/statemachine.go:214-305 | one iteration of the event loop, as specified; on the object it keeps the invariants of every run and takes nothing back |
| TxBuffer.WorkingState.CheckAddTx | gdriver/gtxbuf/workingstate.go:21-43 | a transaction is buffered exactly when it applies to the current state |
| TxBuffer.WorkingState.Buffered | gdriver/gtxbuf/workingstate.go:45-48 | the buffered transactions are appended in order |
| TxBuffer.WorkingState.Rebase | gdriver/gtxbuf/workingstate.go:50-96 | the loop with its early returns gives exactly the specified state and response |
| TxBuffer.PassReplaysKept | gdriver/gtxbuf/workingstate.go:69-87 | the pass that skips failures ends where replaying the kept transactions ends |
| TxBuffer.CheckedMeaning | gdriver/gtxbuf/workingstate.go:21-43 | a transaction is buffered last exactly when it applies to the current state, else nothing changes |
| TxBuffer.FatalKeeps | gdriver/gtxbuf/workingstate.go:69-87 | on another error it is reported and no unapplied transaction is lost |
| TxBuffer.FatalIsFirst | gdriver/gtxbuf/workingstate.go:69-87 | that error is the first one met after the kept ones before it |
| TxBuffer.KeptIffApplies | gdriver/gtxbuf/workingstate.go:69-87 | a transaction is kept exactly when it applies after the kept ones before it |
| TxBuffer.RebaseSplits | gdriver/gtxbuf/workingstate.go:50-96 | a rebase splits the unapplied transactions, in order, into kept and invalidated |
| TxBuffer.AlwaysReplayable | gdriver/gtxbuf/workingstate.go:21-96 | after any additions and rebases the current state is the replay of the buffer from the base |
| TxBuffer.PruningIff | gdriver/gtxbuf/workingstate.go:89-93 | pruning leaves exactly the kept ones if and only if none equals an invalidated one |
| TxBuffer.ReplayableIffDistinct | gdriver/gtxbuf/workingstate.go:50-96 | for every addTx and base: a rebase leaves the current state the replay of the buffer exactly when the unapplied transactions are distinct |
| TxBuffer.DuplicateLost | gdriver/gtxbuf/workingstate.go:89-93 | any repeated unapplied transaction that is valid once is lost from the buffer |
| TxBuffer.DuplicatesBreakReplay | gdriver/gtxbuf/workingstate.go:89-93 | a buffer with a duplicate for which the replay fails |
| FixedTree.Layer | gnetdag/fixedtree.go:82-100 | the loop ends with the layer whose index range holds the entry |
| FixedTree.FirstChild | gnetdag/fixedtree.go:58-79 | the loop ends with branch factor times index plus one, also for the index one past a layer |
| FixedTree.Parent | gnetdag/fixedtree.go:25-51 | the quotient of index minus one by the branch factor, and -1 for the root |
| FixedTree.ChildrenAndParent | gnetdag/fixedtree.go:53-79 | the children of an entry are exactly the entries whose parent it is |
| FixedTree.ParentOneLayerUp | gnetdag/fixedtree.go:25-51 | a parent lies in the layer just above |
| FixedTree.LayerRange | gnetdag/fixedtree.go:82-100 | going up parent by parent counts the layers |
| FixedTree.ChildRoundTrip | gnetdag/fixedtree.go:25-100 | down to any child and up again is the identity, one layer each way |

## Left out

- Replayed headers (`handleReplayedHeader`): they move voting one round whatever the proof's round is, and do not compare validator sets.
- Restart and catch-up loading of kernel and state machine; runs start from genesis, except that `ActionStore` covers restarts over one action store.
- Catch-up mode of the state machine: a run ends when the mirror answers an entrance with a committed header.
- What follows a failed write of the state machine's own store, or a cancelled context, while a round is entered; the engine ignores the result in view updates. A run ends there.
- Fetching missing headers, the lag manager, round and header stores of the kernel, metrics, logging, the watchdog.
- `PrevCommitProof` of views and headers beyond which signatures a header carries, and the overall vote versions: nothing modelled reads them.
- `ForceSend` of the state machine view manager: it has no caller.
- The hints on newly considered hashes and the 100 ms limits on handing requests to the strategy.
- The result codes of proof handlers other than acceptance; a retry is another lookup.
- Sharing of maps between copied views: views are values in the model, and the engine clones where it hands them out.
- `sort.Slice`: insertion in place stands for it in the simple proof's `AsSparse`.
- `Tree.ClearSignatures`: it leaves the bits untouched and has no caller in the modelled files.
- Elliptic curves, hashing, key registry, erasure coding, networking, gossip strategies and test fixtures.
- Liveness and cross-round locking: the decision is the user's strategy.
- Kernel.AddPrevote: the engine's in-flight fetches and store writes are not part of the model.
- Kernel.AddPrecommit: the engine's in-flight fetches and store writes are not part of the model.
- Kernel.AddProposedHeader: cancelling fetches and store writes are not part of the model. The backfill is modelled per signer index, and the height and round of the carried proof are not compared, as the engine does not compare them either.
- BlsProof.SignatureProof.MergeSparse: signature bytes that do not decode have no counterpart.
- Joint.PairKeeps: an entrance that fails is one the mirror did not handle; a run of the two ends with it, as with a panic or with catching up.
- Signals.JumpRefusedIff: is about the refusal of the jump itself; its premises exclude that a round entered on the way fails or panics for another reason, and that the view sent along is stale.
- Kernel.SendToGossip: requires that a slot stamped as sent was sent, which the kernel's invariant gives.
