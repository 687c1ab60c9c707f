/** Round views: what the mirror knows about one height and round, with its version counters. */
module Views {
  import opened Options
  import opened Quorum
  import opened Votes

  datatype ValSet = ValSet(keys: seq<Key>, powers: seq<nat>)

  /** A block header. `prevCommit` holds, per block hash, the validator indices for which the header
    carries a precommit signature of the previous height. */
  datatype Header = Header(
    hash: Hash, height: nat, vals: ValSet, nextVals: ValSet, prevAppHash: string,
    prevCommit: map<Hash, set<nat>>)

  datatype ProposedHeader = ProposedHeader(header: Header, round: nat, sig: string)

  datatype Kind = Prevote | Precommit

  /** A released vote signature. Signatures are unforgeable: one verifies exactly when it was released. */
  datatype Vote = Vote(kind: Kind, key: Key, h: nat, r: nat, hash: Hash)

  /** The proofs of one kind of vote, with the version of each block's proof. */
  datatype Ballot = Ballot(proofs: map<Hash, Proof>, vers: map<Hash, nat>)

  datatype View = View(
    h: nat, r: nat, vals: ValSet, headers: seq<ProposedHeader>,
    prevotes: Ballot, precommits: Ballot,
    summary: VoteSummary, version: nat)

  const EMPTY_BALLOT := Ballot(map[], map[])

  /** The zero value: the committing view before anything has committed. */
  const ZERO_VIEW := View(0, 0, ValSet([], []), [], EMPTY_BALLOT, EMPTY_BALLOT, VoteSummary(0, EMPTY_TALLY, EMPTY_TALLY), 0)

  function FreshView(h: nat, r: nat, vals: ValSet): View {
    View(h, r, vals, [], EMPTY_BALLOT, EMPTY_BALLOT, VoteSummary(Total(vals.powers), EMPTY_TALLY, EMPTY_TALLY), 0)
  }

  function BallotOf(v: View, kind: Kind): Ballot {
    if kind.Prevote? then v.prevotes else v.precommits
  }

  function WithBallot(v: View, kind: Kind, b: Ballot): View {
    if kind.Prevote? then v.(prevotes := b) else v.(precommits := b)
  }

  /** Absent hashes are at version 0, as a map lookup reads them. */
  function Ver(b: Ballot, hash: Hash): nat {
    if hash in b.vers then b.vers[hash] else 0
  }

  function Signers(b: Ballot, hash: Hash): set<nat> {
    if hash in b.proofs then b.proofs[hash].bits else {}
  }

  /** Clears the round, the headers, the votes and the versions; keeps height and validators. */
  function ResetForSameHeight(v: View): View {
    View(v.h, 0, v.vals, [], EMPTY_BALLOT, EMPTY_BALLOT, VoteSummary(v.summary.available, EMPTY_TALLY, EMPTY_TALLY), 0)
  }

  /** Clears everything. */
  function Reset(v: View): View {
    ResetForSameHeight(v).(h := 0, vals := ValSet([], []), summary := VoteSummary(0, EMPTY_TALLY, EMPTY_TALLY))
  }

  /** The cached summary agrees with the proofs and validators it summarizes. */
  ghost predicate SummaryFresh(v: View) {
    IsSummary(v.vals.powers, v.prevotes.proofs, v.precommits.proofs, v.summary)
  }

  predicate HRLess(h1: nat, r1: nat, h2: nat, r2: nat) {
    h1 < h2 || (h1 == h2 && r1 < r2)
  }

  predicate HRLeq(h1: nat, r1: nat, h2: nat, r2: nat) {
    h1 < h2 || (h1 == h2 && r1 <= r2)
  }

  predicate Matches(v: View, h: nat, r: nat) {
    v.h == h && v.r == r
  }

  /** A submitted change to one block's proof, valid against one version of it. */
  datatype VoteUpdate = VoteUpdate(proof: Proof, prevVersion: nat)

  /** The indices of `claim` whose signature verifies under the proof's keys. */
  ghost function Verified(signed: set<Vote>, proof: Proof, kind: Kind, h: nat, r: nat, hash: Hash, claim: set<nat>): set<nat> {
    set i | i in claim && i < |proof.keys| && Vote(kind, proof.keys[i], h, r, hash) in signed
  }

  /** Sparse merge: what verifies is added, nothing else changes. */
  ghost function MergeSparse(signed: set<Vote>, proof: Proof, kind: Kind, h: nat, r: nat, hash: Hash, claim: set<nat>): Proof {
    proof.(bits := proof.bits + Verified(signed, proof, kind, h, r, hash, claim))
  }
}
