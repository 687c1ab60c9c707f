/** Merging and sending signature trees, as functions and facts over the stored signatures. */
module BlsProofSpec {
  import opened Options
  import opened TreeShape
  import opened SigTreeSpec
  import opened SigTree

  /** The node index as sent: two big-endian bytes, or something of another length. */
  datatype KeyId = Malformed | KeyId(n: nat)

  datatype SparseSig<S> = SparseSig(keyId: KeyId, sig: S)

  datatype Merged<S> = Merged(sigs: seq<Option<S>>, ok: bool)

  const ID_LIMIT := 65536

  /** The index is converted to 16 bits before it is written, so larger indices wrap. */
  function EncodeId(id: nat): KeyId {
    KeyId(id % ID_LIMIT)
  }

  /** One incoming signature: unknown indices and signatures that do not verify are refused, a
    signature already held must be equal. The zero key verifies nothing. */
  ghost function MergeAt<K, S>(sch: Scheme<K, S>, w: nat, keys: seq<Option<K>>, sigs: seq<Option<S>>,
                                   id: nat, sig: S): (r: Merged<S>)
    requires |keys| == |sigs| == 2 * w - 1 && Node(w, id)
    ensures |r.sigs| == |sigs|
  {
    if sigs[id].Some? then Merged(sigs, sigs[id].value == sig)
    else if keys[id].None? || !sch.valid(keys[id].value, sig) then Merged(sigs, false)
    else Merged(AddSig(sch, w, keys, sigs, id, sig), true)
  }

  ghost function MergeOne<K, S>(sch: Scheme<K, S>, w: nat, keys: seq<Option<K>>, sigs: seq<Option<S>>,
                                    e: SparseSig<S>): (r: Merged<S>)
    requires |keys| == |sigs| == 2 * w - 1
    ensures |r.sigs| == |sigs|
  {
    if e.keyId.Malformed? || !Node(w, e.keyId.n) then Merged(sigs, false)
    else MergeAt(sch, w, keys, sigs, e.keyId.n, e.sig)
  }

  /** Merging a list of incoming signatures, in order. */
  ghost function MergeAll<K, S>(sch: Scheme<K, S>, w: nat, keys: seq<Option<K>>, sigs: seq<Option<S>>,
                                    es: seq<SparseSig<S>>): (r: Merged<S>)
    requires |keys| == |sigs| == 2 * w - 1
    ensures |r.sigs| == |sigs|
  {
    if |es| == 0 then Merged(sigs, true)
    else
      var before := MergeAll(sch, w, keys, sigs, es[..|es| - 1]);
      var r := MergeOne(sch, w, keys, before.sigs, es[|es| - 1]);
      Merged(r.sigs, before.ok && r.ok)
  }

  lemma MergeNext<K, S>(sch: Scheme<K, S>, w: nat, keys: seq<Option<K>>, sigs: seq<Option<S>>,
                        es: seq<SparseSig<S>>, k: nat)
    requires |keys| == |sigs| == 2 * w - 1 && k < |es|
    ensures var before := MergeAll(sch, w, keys, sigs, es[..k]);
            var r := MergeOne(sch, w, keys, before.sigs, es[k]);
            MergeAll(sch, w, keys, sigs, es[..k + 1]) == Merged(r.sigs, before.ok && r.ok)
  {
    assert es[..k + 1][..k] == es[..k];
  }

  predicate AllSigned<S>(sigs: seq<Option<S>>, ids: seq<nat>) {
    forall id :: id in ids ==> id < |sigs| && sigs[id].Some?
  }

  lemma PrefixSigned<S>(sigs: seq<Option<S>>, ids: seq<nat>, k: nat)
    requires AllSigned(sigs, ids) && k <= |ids|
    ensures AllSigned(sigs, ids[..k])
    ensures k < |ids| ==> ids[k] in ids
  {
    assert forall x :: x in ids[..k] ==> x in ids;
  }

  /** The wire form of the signatures at `ids`. */
  ghost function Entries<S>(sigs: seq<Option<S>>, ids: seq<nat>): (es: seq<SparseSig<S>>)
    requires AllSigned(sigs, ids)
    ensures |es| == |ids|
  {
    if |ids| == 0 then []
    else
      var last := |ids| - 1;
      PrefixSigned(sigs, ids, last);
      Entries(sigs, ids[..last]) + [SparseSig(EncodeId(ids[last]), sigs[ids[last]].value)]
  }

  lemma {:induction false} EntriesAt<S>(sigs: seq<Option<S>>, ids: seq<nat>, k: nat)
    requires AllSigned(sigs, ids) && k < |ids|
    ensures ids[k] in ids && Entries(sigs, ids)[k] == SparseSig(EncodeId(ids[k]), sigs[ids[k]].value)
    ensures AllSigned(sigs, ids[..k]) && Entries(sigs, ids)[..k] == Entries(sigs, ids[..k])
  {
    var last := |ids| - 1;
    PrefixSigned(sigs, ids, last);
    PrefixSigned(sigs, ids, k);
    if k < last {
      EntriesAt(sigs, ids[..last], k);
      assert ids[..last][..k] == ids[..k];
    }
  }

  /** Merging one more signature of a wire form. */
  lemma MergeEntry<K, S>(sch: Scheme<K, S>, w: nat, keys: seq<Option<K>>, start: seq<Option<S>>,
                         sigs: seq<Option<S>>, ids: seq<nat>, k: nat)
    requires |keys| == |start| == 2 * w - 1 && AllSigned(sigs, ids) && k < |ids|
    requires Node(w, ids[k] % ID_LIMIT)
    ensures ids[k] in ids && ids[k] < |sigs| && sigs[ids[k]].Some?
    ensures var d := MergeAll(sch, w, keys, start, Entries(sigs, ids)[..k]);
            var r := MergeAt(sch, w, keys, d.sigs, ids[k] % ID_LIMIT, sigs[ids[k]].value);
            MergeAll(sch, w, keys, start, Entries(sigs, ids)[..k + 1]) == Merged(r.sigs, d.ok && r.ok)
  {
    MergeNext(sch, w, keys, start, Entries(sigs, ids), k);
    EntriesAt(sigs, ids, k);
  }

  // ----- Untrusted input -----

  /** Whatever is merged, a tree that held only valid signatures still does, stays upward closed,
    and loses no signer. */
  lemma {:induction false} MergeAllSafe<K(!new), S(!new)>(sch: Scheme<K, S>, w: nat, leaf: seq<K>, keys: seq<Option<K>>,
                                                sigs: seq<Option<S>>, es: seq<SparseSig<S>>)
    requires Additive(sch) && KeysBuilt(sch, w, leaf, keys)
    requires Sound(sch, keys, sigs) && UpClosed(w, keys, sigs)
    ensures Sound(sch, keys, MergeAll(sch, w, keys, sigs, es).sigs)
    ensures UpClosed(w, keys, MergeAll(sch, w, keys, sigs, es).sigs)
    ensures Covered(w, |leaf|, sigs) <= Covered(w, |leaf|, MergeAll(sch, w, keys, sigs, es).sigs)
  {
    if |es| > 0 {
      var e := es[|es| - 1];
      MergeAllSafe(sch, w, leaf, keys, sigs, es[..|es| - 1]);
      var d := MergeAll(sch, w, keys, sigs, es[..|es| - 1]).sigs;
      if e.keyId.KeyId? && Node(w, e.keyId.n) {
        MergeAtSafe(sch, w, leaf, keys, d, e.keyId.n, e.sig);
      }
    }
  }

  lemma MergeAtSafe<K(!new), S(!new)>(sch: Scheme<K, S>, w: nat, leaf: seq<K>, keys: seq<Option<K>>,
                                          d: seq<Option<S>>, id: nat, sig: S)
    requires Additive(sch) && KeysBuilt(sch, w, leaf, keys) && Node(w, id)
    requires Sound(sch, keys, d) && UpClosed(w, keys, d)
    ensures Sound(sch, keys, MergeAt(sch, w, keys, d, id, sig).sigs)
    ensures UpClosed(w, keys, MergeAt(sch, w, keys, d, id, sig).sigs)
    ensures Covered(w, |leaf|, d) <= Covered(w, |leaf|, MergeAt(sch, w, keys, d, id, sig).sigs)
    ensures keys[id].Some? && sch.valid(keys[id].value, sig) ==>
              Covered(w, |leaf|, MergeAt(sch, w, keys, d, id, sig).sigs)
              == Covered(w, |leaf|, d) + Beneath(w, |leaf|, id)
  {
    if d[id].Some? {
      BeneathSigned(w, |leaf|, d, id);
    } else if keys[id].Some? && sch.valid(keys[id].value, sig) {
      AddSigSound(sch, w, leaf, keys, d, id, sig);
      assert UpClosedBut(w, keys, d, id);
      AddSigUpClosed(sch, w, keys, d, id, sig);
      AddSigCovered(sch, w, leaf, keys, d, id, sig);
    }
  }

  /** The entry names a node, and its signature is valid there. */
  predicate ValidEntry<K, S>(sch: Scheme<K, S>, w: nat, keys: seq<Option<K>>, e: SparseSig<S>)
    requires |keys| == 2 * w - 1
  {
    e.keyId.KeyId? && Node(w, e.keyId.n) && keys[e.keyId.n].Some? && sch.valid(keys[e.keyId.n].value, e.sig)
  }

  /** Some valid entry of the list is above the leaf. */
  ghost predicate UnderValid<K, S>(sch: Scheme<K, S>, w: nat, keys: seq<Option<K>>, es: seq<SparseSig<S>>, j: nat)
    requires |keys| == 2 * w - 1 && Node(w, j)
  {
    exists k :: 0 <= k < |es| && ValidEntry(sch, w, keys, es[k]) && Above(w, es[k].keyId.n, j)
  }

  lemma UnderValidNext<K, S>(sch: Scheme<K, S>, w: nat, keys: seq<Option<K>>, es: seq<SparseSig<S>>, j: nat)
    requires |keys| == 2 * w - 1 && Node(w, j) && |es| > 0
    ensures
      var e := es[|es| - 1];
      UnderValid(sch, w, keys, es, j)
      <==> UnderValid(sch, w, keys, es[..|es| - 1], j) || (ValidEntry(sch, w, keys, e) && Above(w, e.keyId.n, j))
  {
    var front := es[..|es| - 1];
    assert forall k :: 0 <= k < |front| ==> front[k] == es[k];
  }

  /** Whatever is merged, in whatever order: the signers are those before and the leaves under a valid entry,
    nobody else. */
  lemma {:induction false} MergeCovers<K(!new), S(!new)>(sch: Scheme<K, S>, w: nat, leaf: seq<K>, keys: seq<Option<K>>,
                                               sigs: seq<Option<S>>, es: seq<SparseSig<S>>, j: nat)
    requires Additive(sch) && KeysBuilt(sch, w, leaf, keys) && Sound(sch, keys, sigs) && UpClosed(w, keys, sigs)
    requires j < |leaf|
    ensures j in Covered(w, |leaf|, MergeAll(sch, w, keys, sigs, es).sigs)
       <==> j in Covered(w, |leaf|, sigs) || UnderValid(sch, w, keys, es, j)
  {
    if |es| > 0 {
      var e, front := es[|es| - 1], es[..|es| - 1];
      MergeCovers(sch, w, leaf, keys, sigs, front, j);
      MergeAllSafe(sch, w, leaf, keys, sigs, front);
      UnderValidNext(sch, w, keys, es, j);
      var d := MergeAll(sch, w, keys, sigs, front).sigs;
      if e.keyId.KeyId? && Node(w, e.keyId.n) {
        MergeAtSafe(sch, w, leaf, keys, d, e.keyId.n, e.sig);
        InvalidStays(sch, w, keys, d, e.keyId.n, e.sig);
      }
    }
  }

  lemma InvalidStays<K, S>(sch: Scheme<K, S>, w: nat, keys: seq<Option<K>>, d: seq<Option<S>>, id: nat, sig: S)
    requires |keys| == |d| == 2 * w - 1 && Node(w, id)
    ensures !(keys[id].Some? && sch.valid(keys[id].value, sig)) ==> MergeAt(sch, w, keys, d, id, sig).sigs == d
  {
  }

  /** A key has at most one valid signature. */
  ghost predicate Unique<K(!new), S(!new)>(sch: Scheme<K, S>) {
    forall k, s, t :: sch.valid(k, s) && sch.valid(k, t) ==> s == t
  }

  /** All is reported valid exactly when every entry is. */
  lemma {:induction false} AllValidIff<K(!new), S(!new)>(sch: Scheme<K, S>, w: nat, leaf: seq<K>, keys: seq<Option<K>>,
                                               sigs: seq<Option<S>>, es: seq<SparseSig<S>>)
    requires Additive(sch) && Unique(sch) && KeysBuilt(sch, w, leaf, keys) && Sound(sch, keys, sigs) && UpClosed(w, keys, sigs)
    ensures MergeAll(sch, w, keys, sigs, es).ok <==> forall k :: 0 <= k < |es| ==> ValidEntry(sch, w, keys, es[k])
  {
    if |es| > 0 {
      var e, front := es[|es| - 1], es[..|es| - 1];
      AllValidIff(sch, w, leaf, keys, sigs, front);
      MergeAllSafe(sch, w, leaf, keys, sigs, front);
      assert forall k :: 0 <= k < |front| ==> front[k] == es[k];
      OneValidIff(sch, w, keys, MergeAll(sch, w, keys, sigs, front).sigs, e);
    }
  }

  lemma OneValidIff<K(!new), S(!new)>(sch: Scheme<K, S>, w: nat, keys: seq<Option<K>>, d: seq<Option<S>>, e: SparseSig<S>)
    requires |keys| == |d| == 2 * w - 1 && Unique(sch) && Sound(sch, keys, d)
    ensures MergeOne(sch, w, keys, d, e).ok <==> ValidEntry(sch, w, keys, e)
  {
  }

  // ----- Sending one tree to another -----

  ghost function BeneathAny(w: nat, n: nat, ids: seq<nat>): set<nat>
    requires n <= w
  {
    set j: nat | j < n && UnderOne(w, ids, j)
  }

  ghost predicate UnderOne(w: nat, ids: seq<nat>, j: nat)
    requires Node(w, j)
  {
    exists id :: id in ids && Above(w, id, j)
  }

  /** The topmost nodes stand for everything the tree covers. */
  lemma TopmostStandForAll<S>(w: nat, n: nat, sigs: seq<Option<S>>, ids: seq<nat>)
    requires |sigs| == 2 * w - 1 && n <= w && ListsTopmost(w, sigs, ids)
    ensures AllSigned(sigs, ids)
    ensures BeneathAny(w, n, ids) == Covered(w, n, sigs)
  {
    forall j: nat | j < n && SignedAbove(w, sigs, j) ensures UnderOne(w, ids, j) {
      var a := TopmostCovers(w, sigs, j);
      assert a in ids;
    }
    forall j: nat | j < n && UnderOne(w, ids, j) ensures SignedAbove(w, sigs, j) {
      var id :| id in ids && Above(w, id, j);
      SignedAboveIff(w, sigs, j);
    }
  }

  lemma UnionStep<K(!new), S(!new)>(sch: Scheme<K, S>, w: nat, leaf: seq<K>, keys: seq<Option<K>>,
      mine: seq<Option<S>>, theirs: seq<Option<S>>, ids: seq<nat>, k: nat)
    requires Additive(sch) && KeysBuilt(sch, w, leaf, keys)
    requires Sound(sch, keys, mine) && UpClosed(w, keys, mine) && Sound(sch, keys, theirs)
    requires AllSigned(theirs, ids) && k < |ids| && ids[k] < ID_LIMIT && Node(w, ids[k])
    ensures Covered(w, |leaf|, MergeAll(sch, w, keys, mine, Entries(theirs, ids)[..k + 1]).sigs)
         == Covered(w, |leaf|, MergeAll(sch, w, keys, mine, Entries(theirs, ids)[..k]).sigs) + Beneath(w, |leaf|, ids[k])
  {
    var id := ids[k];
    assert id in ids && id % ID_LIMIT == id;
    MergeAllSafe(sch, w, leaf, keys, mine, Entries(theirs, ids)[..k]);
    MergeEntry(sch, w, keys, mine, theirs, ids, k);
    TopmostKeyed(sch, w, keys, theirs, id);
    MergeAtSafe(sch, w, leaf, keys, MergeAll(sch, w, keys, mine, Entries(theirs, ids)[..k]).sigs, id, theirs[id].value);
  }

  /** Merging what another tree over the same keys sends gives the union of the signers. */
  lemma {:induction false} MergeIsUnion<K(!new), S(!new)>(sch: Scheme<K, S>, w: nat, leaf: seq<K>, keys: seq<Option<K>>,
      mine: seq<Option<S>>, theirs: seq<Option<S>>, ids: seq<nat>, k: nat)
    requires Additive(sch) && KeysBuilt(sch, w, leaf, keys)
    requires Sound(sch, keys, mine) && UpClosed(w, keys, mine) && Sound(sch, keys, theirs)
    requires AllSigned(theirs, ids) && (forall id :: id in ids ==> id < ID_LIMIT) && k <= |ids|
    ensures Covered(w, |leaf|, MergeAll(sch, w, keys, mine, Entries(theirs, ids)[..k]).sigs)
         == Covered(w, |leaf|, mine) + BeneathAny(w, |leaf|, ids[..k])
  {
    if k > 0 {
      var id := ids[k - 1];
      assert id in ids;
      MergeIsUnion(sch, w, leaf, keys, mine, theirs, ids, k - 1);
      UnionStep(sch, w, leaf, keys, mine, theirs, ids, k - 1);
      BeneathAnyNext(w, |leaf|, ids, k - 1);
      SetStep(Covered(w, |leaf|, mine), BeneathAny(w, |leaf|, ids[..k - 1]), Beneath(w, |leaf|, id));
    }
  }

  lemma SetStep(a: set<nat>, b: set<nat>, c: set<nat>)
    ensures a + b + c == a + (b + c)
  {
  }

  lemma BeneathAnyNext(w: nat, n: nat, ids: seq<nat>, k: nat)
    requires n <= w && k < |ids|
    ensures BeneathAny(w, n, ids[..k + 1]) == BeneathAny(w, n, ids[..k]) + Beneath(w, n, ids[k])
  {
    assert forall x :: x in ids[..k + 1] <==> x in ids[..k] || x == ids[k];
    forall j: nat | j < n
      ensures UnderOne(w, ids[..k + 1], j) <==> UnderOne(w, ids[..k], j) || Above(w, ids[k], j)
    {
    }
  }

  // ----- Round trip -----

  ghost function NoSigs<S>(w: nat): seq<Option<S>>
    requires w > 0
  {
    seq(2 * w - 1, i => None)
  }

  /** The signatures at `ids` and nothing else. */
  ghost function Only<S>(sigs: seq<Option<S>>, ids: seq<nat>): (r: seq<Option<S>>)
    ensures |r| == |sigs|
  {
    seq(|sigs|, i requires 0 <= i < |sigs| => if i in ids then sigs[i] else None)
  }

  /** Adding a topmost signature of an upward-closed tree next to other topmost ones completes nothing. */
  lemma TopmostDoesNotCascade<K(!new), S(!new)>(sch: Scheme<K, S>, w: nat, leaf: seq<K>, keys: seq<Option<K>>,
      sigs: seq<Option<S>>, ids: seq<nat>, k: nat)
    requires KeysBuilt(sch, w, leaf, keys) && Sound(sch, keys, sigs) && UpClosed(w, keys, sigs)
    requires ListsTopmost(w, sigs, ids) && k < |ids|
    ensures Node(w, ids[k]) && sigs[ids[k]].Some? && ids[k] !in ids[..k]
    ensures AddSig(sch, w, keys, Only(sigs, ids[..k]), ids[k], sigs[ids[k]].value) == Only(sigs, ids[..k + 1])
  {
    var id, d := ids[k], Only(sigs, ids[..k]);
    assert id in ids && Topmost(w, sigs, id);
    assert forall x :: x in ids[..k + 1] <==> x in ids[..k] || x == id;
    assert forall x :: x in ids[..k] ==> x in ids;
    if id != Root(w) {
      var p, nb := Parent(w, id), Sibling(id);
      assert sigs[p].None?;
      PaddingIsRight(sch, w, leaf, keys, id);
      assert ClosedAt(w, keys, sigs, p);
      assert LeftOf(w, p) == id || RightOf(w, p) == id;
      assert keys[nb].Some? && sigs[nb].None?;
      assert d[p].None? && d[nb].None?;
    }
    assert d[id := Some(sigs[id].value)] == Only(sigs, ids[..k + 1]);
  }

  lemma TopmostKeyed<K, S>(sch: Scheme<K, S>, w: nat, keys: seq<Option<K>>, sigs: seq<Option<S>>, id: nat)
    requires Sound(sch, keys, sigs) && id < |sigs| && sigs[id].Some?
    ensures keys[id].Some? && sch.valid(keys[id].value, sigs[id].value)
  {
  }

  lemma MergeAbsent<K, S>(sch: Scheme<K, S>, w: nat, keys: seq<Option<K>>, d: seq<Option<S>>, id: nat, sig: S)
    requires |keys| == |d| == 2 * w - 1 && Node(w, id) && d[id].None?
    requires keys[id].Some? && sch.valid(keys[id].value, sig)
    ensures MergeAt(sch, w, keys, d, id, sig) == Merged(AddSig(sch, w, keys, d, id, sig), true)
  {
  }

  lemma TopmostMerges<K(!new), S(!new)>(sch: Scheme<K, S>, w: nat, leaf: seq<K>, keys: seq<Option<K>>,
      sigs: seq<Option<S>>, ids: seq<nat>, k: nat)
    requires KeysBuilt(sch, w, leaf, keys) && Sound(sch, keys, sigs) && UpClosed(w, keys, sigs)
    requires ListsTopmost(w, sigs, ids) && k < |ids|
    ensures Node(w, ids[k]) && sigs[ids[k]].Some?
    ensures MergeAt(sch, w, keys, Only(sigs, ids[..k]), ids[k], sigs[ids[k]].value) == Merged(Only(sigs, ids[..k + 1]), true)
  {
    TopmostDoesNotCascade(sch, w, leaf, keys, sigs, ids, k);
    TopmostKeyed(sch, w, keys, sigs, ids[k]);
    MergeAbsent(sch, w, keys, Only(sigs, ids[..k]), ids[k], sigs[ids[k]].value);
  }

  lemma MergeFitting<K, S>(sch: Scheme<K, S>, w: nat, keys: seq<Option<K>>, start: seq<Option<S>>,
                           sigs: seq<Option<S>>, ids: seq<nat>, k: nat, before: seq<Option<S>>, after: seq<Option<S>>)
    requires |keys| == |start| == |before| == 2 * w - 1 && AllSigned(sigs, ids)
    requires k < |ids| && ids[k] < ID_LIMIT && Node(w, ids[k]) && ids[k] < |sigs| && sigs[ids[k]].Some?
    requires MergeAll(sch, w, keys, start, Entries(sigs, ids)[..k]) == Merged(before, true)
    requires MergeAt(sch, w, keys, before, ids[k], sigs[ids[k]].value) == Merged(after, true)
    ensures MergeAll(sch, w, keys, start, Entries(sigs, ids)[..k + 1]) == Merged(after, true)
  {
    assert ids[k] % ID_LIMIT == ids[k];
    MergeEntry(sch, w, keys, start, sigs, ids, k);
  }

  /** Merging a tree's wire form into a derived tree: every signature is valid, and exactly the
    topmost signatures are stored, as long as the node indices fit the key identifier. */
  lemma {:induction false} RoundTripPrefix<K(!new), S(!new)>(sch: Scheme<K, S>, w: nat, leaf: seq<K>, keys: seq<Option<K>>,
      sigs: seq<Option<S>>, ids: seq<nat>, k: nat)
    requires KeysBuilt(sch, w, leaf, keys) && Sound(sch, keys, sigs) && UpClosed(w, keys, sigs)
    requires ListsTopmost(w, sigs, ids) && AllSigned(sigs, ids) && k <= |ids|
    requires forall id :: id in ids ==> id < ID_LIMIT
    ensures MergeAll(sch, w, keys, NoSigs(w), Entries(sigs, ids)[..k]) == Merged(Only(sigs, ids[..k]), true)
  {
    if k == 0 {
      assert Only(sigs, ids[..0]) == NoSigs<S>(w);
    } else {
      RoundTripPrefix(sch, w, leaf, keys, sigs, ids, k - 1);
      TopmostMerges(sch, w, leaf, keys, sigs, ids, k - 1);
      assert ids[k - 1] in ids;
      MergeFitting(sch, w, keys, NoSigs(w), sigs, ids, k - 1, Only(sigs, ids[..k - 1]), Only(sigs, ids[..k]));
    }
  }

  /** The round trip: all valid, same signers. */
  lemma RoundTrip<K(!new), S(!new)>(sch: Scheme<K, S>, w: nat, leaf: seq<K>, keys: seq<Option<K>>,
                                        sigs: seq<Option<S>>, ids: seq<nat>)
    requires KeysBuilt(sch, w, leaf, keys) && Sound(sch, keys, sigs) && UpClosed(w, keys, sigs)
    requires ListsTopmost(w, sigs, ids) && AllSigned(sigs, ids)
    requires forall id :: id in ids ==> id < ID_LIMIT
    ensures MergeAll(sch, w, keys, NoSigs(w), Entries(sigs, ids)).ok
    ensures Covered(w, |leaf|, MergeAll(sch, w, keys, NoSigs(w), Entries(sigs, ids)).sigs)
         == Covered(w, |leaf|, sigs)
  {
    var n := |leaf|;
    RoundTripPrefix(sch, w, leaf, keys, sigs, ids, |ids|);
    assert Entries(sigs, ids)[..|ids|] == Entries(sigs, ids) && ids[..|ids|] == ids;
    var d := Only(sigs, ids);
    forall j: nat | j < n ensures SignedAbove(w, d, j) <==> SignedAbove(w, sigs, j) {
      SignedAboveIff(w, d, j);
      SignedAboveIff(w, sigs, j);
      if SignedAbove(w, sigs, j) {
        var a := TopmostCovers(w, sigs, j);
        AboveGrows(w, a, j);
        assert a in ids && d[a].Some?;
      }
    }
  }

  lemma PowersNeeded()
    ensures IsPow2(32768) && IsPow2(ID_LIMIT)
  {
    assert Pow2(4) == 16;
    assert Pow2(8) == 256;
    assert Pow2(12) == 4096;
    assert Pow2(15) == 32768;
    assert Pow2(16) == 65536;
  }

  /** Up to 32768 keys, every node index fits the key identifier. */
  lemma SmallTreesFit(n: nat)
    requires 0 < n <= 32768
    ensures 2 * LeavesWidth(n) - 1 < ID_LIMIT
  {
    var w := LeavesWidth(n);
    PowersNeeded();
    if w > 32768 { Pow2Gap(32768, w); }
  }

  // ----- Beyond 32768 keys -----

  /** One signature is valid under at most one key. */
  ghost predicate Binding<K(!new), S(!new)>(sch: Scheme<K, S>) {
    forall k, l, s :: sch.valid(k, s) && sch.valid(l, s) ==> k == l
  }

  /** Nodes over different real leaves have different aggregate keys. */
  ghost predicate DistinctAggregates<K>(w: nat, n: nat, keys: seq<Option<K>>)
    requires |keys| == 2 * w - 1
  {
    forall i, j :: Node(w, i) && Node(w, j) && keys[i].Some? && keys[i] == keys[j] ==>
      Lo(w, i) == Lo(w, j) && Min(Hi(w, i), n) == Min(Hi(w, j), n)
  }

  /** A wrapped index never names a node over the same real leaves. */
  lemma FoldedIndexDiffers(n: nat, w: nat, id: nat)
    requires IsPow2(w) && 1 < n <= w && Inner(w, id)
    ensures Lo(w, id) != Lo(w, id - w) || Min(Hi(w, id), n) != Min(Hi(w, id - w), n)
  {
    if Lo(w, id) == id - w {
      FoldedIndexMoves(w, id);
      assert LeftOf(w, id) == 0 && RightOf(w, id) == 1;
    }
  }

  /** Indices beyond 16 bits occur only in trees whose leaf layer is exactly that wide. */
  lemma WideTree(n: nat, id: nat)
    requires 0 < n <= MAX_KEYS && Node(LeavesWidth(n), id) && id >= ID_LIMIT
    ensures LeavesWidth(n) == ID_LIMIT && 1 < n
    ensures Inner(LeavesWidth(n), id) && id % ID_LIMIT == id - LeavesWidth(n)
  {
    var w := LeavesWidth(n);
    PowersNeeded();
    if w < ID_LIMIT { Pow2Gap(w, ID_LIMIT); }
    if w > ID_LIMIT { Pow2Gap(ID_LIMIT, w); }
  }

  /** With binding signatures and distinct aggregates, the round trip succeeds exactly when every
    topmost index fits the key identifier. */
  lemma RoundTripIff<K(!new), S(!new)>(sch: Scheme<K, S>, leaf: seq<K>, keys: seq<Option<K>>,
                                               sigs: seq<Option<S>>, ids: seq<nat>)
    requires 0 < |leaf| <= MAX_KEYS
    requires Additive(sch) && Binding(sch) && KeysBuilt(sch, LeavesWidth(|leaf|), leaf, keys)
    requires DistinctAggregates(LeavesWidth(|leaf|), |leaf|, keys)
    requires Sound(sch, keys, sigs) && UpClosed(LeavesWidth(|leaf|), keys, sigs)
    requires ListsTopmost(LeavesWidth(|leaf|), sigs, ids) && AllSigned(sigs, ids)
    ensures MergeAll(sch, LeavesWidth(|leaf|), keys, NoSigs(LeavesWidth(|leaf|)), Entries(sigs, ids)).ok
       <==> forall id :: id in ids ==> id < ID_LIMIT
  {
    var w := LeavesWidth(|leaf|);
    if forall id :: id in ids ==> id < ID_LIMIT {
      RoundTrip(sch, w, leaf, keys, sigs, ids);
    } else {
      var k :| 0 <= k < |ids| && ids[k] >= ID_LIMIT;
      WrappedRefused(sch, leaf, keys, sigs, ids, k);
    }
  }

  lemma WrappedRefused<K(!new), S(!new)>(sch: Scheme<K, S>, leaf: seq<K>, keys: seq<Option<K>>,
                                         sigs: seq<Option<S>>, ids: seq<nat>, k: nat)
    requires 0 < |leaf| <= MAX_KEYS
    requires Additive(sch) && Binding(sch) && KeysBuilt(sch, LeavesWidth(|leaf|), leaf, keys)
    requires DistinctAggregates(LeavesWidth(|leaf|), |leaf|, keys)
    requires Sound(sch, keys, sigs) && AllSigned(sigs, ids)
    requires k < |ids| && ids[k] >= ID_LIMIT
    ensures !MergeAll(sch, LeavesWidth(|leaf|), keys, NoSigs(LeavesWidth(|leaf|)), Entries(sigs, ids)).ok
  {
    WrappedEntryRefused(sch, leaf, keys, sigs, ids, k);
    RefusedStaysRefused(sch, LeavesWidth(|leaf|), keys, NoSigs(LeavesWidth(|leaf|)), Entries(sigs, ids), k + 1);
  }

  lemma WrappedEntryRefused<K(!new), S(!new)>(sch: Scheme<K, S>, leaf: seq<K>, keys: seq<Option<K>>,
                                                      sigs: seq<Option<S>>, ids: seq<nat>, k: nat)
    requires 0 < |leaf| <= MAX_KEYS
    requires Additive(sch) && Binding(sch) && KeysBuilt(sch, LeavesWidth(|leaf|), leaf, keys)
    requires DistinctAggregates(LeavesWidth(|leaf|), |leaf|, keys)
    requires Sound(sch, keys, sigs) && AllSigned(sigs, ids)
    requires k < |ids| && ids[k] >= ID_LIMIT
    ensures !MergeAll(sch, LeavesWidth(|leaf|), keys, NoSigs(LeavesWidth(|leaf|)), Entries(sigs, ids)[..k + 1]).ok
  {
    var w, es, id := LeavesWidth(|leaf|), Entries(sigs, ids), ids[k];
    assert id in ids;
    EmptyTree(w, |leaf|, keys, NoSigs<S>(w));
    MergeAllSafe(sch, w, leaf, keys, NoSigs(w), es[..k]);
    var d := MergeAll(sch, w, keys, NoSigs(w), es[..k]).sigs;
    WideTree(|leaf|, id);
    FoldedIndexDiffers(|leaf|, w, id);
    MergeEntry(sch, w, keys, NoSigs(w), sigs, ids, k);
    ForeignSigRefused(sch, w, |leaf|, keys, d, id, id - w, sigs[id].value);
  }

  /** A signature of one node is refused at a node over different real leaves. */
  lemma ForeignSigRefused<K(!new), S(!new)>(sch: Scheme<K, S>, w: nat, n: nat, keys: seq<Option<K>>,
                                            d: seq<Option<S>>, id: nat, t: nat, sig: S)
    requires |keys| == 2 * w - 1 && Binding(sch) && DistinctAggregates(w, n, keys) && Sound(sch, keys, d)
    requires Node(w, id) && Node(w, t) && keys[id].Some? && sch.valid(keys[id].value, sig)
    requires Lo(w, id) != Lo(w, t) || Min(Hi(w, id), n) != Min(Hi(w, t), n)
    ensures !MergeAt(sch, w, keys, d, t, sig).ok
  {
    assert keys[t] != keys[id];
  }

  lemma {:induction false} RefusedStaysRefused<K, S>(sch: Scheme<K, S>, w: nat, keys: seq<Option<K>>, sigs: seq<Option<S>>,
                                               es: seq<SparseSig<S>>, k: nat)
    requires |keys| == |sigs| == 2 * w - 1 && k <= |es|
    requires !MergeAll(sch, w, keys, sigs, es[..k]).ok
    ensures !MergeAll(sch, w, keys, sigs, es).ok
  {
    if k < |es| {
      var init := es[..|es| - 1];
      assert init[..k] == es[..k];
      RefusedStaysRefused(sch, w, keys, sigs, init, k);
    } else {
      assert es[..k] == es;
    }
  }

  // ----- Fully signed trees -----

  /** Beyond 32768 keys, the index of the root does not fit. */
  lemma RootFitsIff(n: nat)
    requires 0 < n <= MAX_KEYS
    ensures Root(LeavesWidth(n)) < ID_LIMIT <==> n <= 32768
  {
    if n <= 32768 {
      SmallTreesFit(n);
    } else {
      PowersNeeded();
      Pow2Gap(32768, LeavesWidth(n));
    }
  }

  /** When everybody has signed, the round trip succeeds exactly for at most 32768 keys. */
  lemma FullTreeIff<K(!new), S(!new)>(sch: Scheme<K, S>, w: nat, leaf: seq<K>, keys: seq<Option<K>>, sigs: seq<Option<S>>)
    requires 0 < |leaf| <= MAX_KEYS && w == LeavesWidth(|leaf|)
    requires Additive(sch) && Binding(sch) && KeysBuilt(sch, w, leaf, keys)
    requires DistinctAggregates(w, |leaf|, keys)
    requires Sound(sch, keys, sigs) && UpClosed(w, keys, sigs) && sigs[Root(w)].Some?
    ensures ListsTopmost(w, sigs, [Root(w) as nat])
    ensures MergeAll(sch, w, keys, NoSigs(w), Entries(sigs, [Root(w) as nat])).ok <==> |leaf| <= 32768
  {
    var ids: seq<nat> := [Root(w)];
    RootIsTopmost(w, sigs);
    RootFitsIff(|leaf|);
    assert AllSigned(sigs, ids);
    assert (forall id :: id in ids ==> id < ID_LIMIT) <==> Root(w) < ID_LIMIT by { assert Root(w) in ids; }
    RoundTripIff(sch, leaf, keys, sigs, ids);
  }

  // ----- Trees for which it fails -----

  /** Keys and signatures are sets of validators, aggregated by union. */
  function SetScheme(): Scheme<set<nat>, set<nat>> {
    Scheme((a, b) => a + b, (a, b) => a + b, (k, s) => k == s)
  }

  function Validators(n: nat): seq<set<nat>> {
    seq(n, i => {i})
  }

  function NodeKey(w: nat, n: nat, i: nat): Option<set<nat>>
    requires Node(w, i)
  {
    if Lo(w, i) < n then Some(Leaves(Lo(w, i), Min(Hi(w, i), n))) else None
  }

  /** Each node's key; also its signature, when everybody has signed. */
  function FullTree(n: nat): (t: seq<Option<set<nat>>>)
    requires n > 0
    ensures |t| == 2 * LeavesWidth(n) - 1
  {
    seq(2 * LeavesWidth(n) - 1, i requires Node(LeavesWidth(n), i) => NodeKey(LeavesWidth(n), n, i))
  }

  lemma LeavesDetermine(lo: nat, hi: nat, lo': nat, hi': nat)
    requires lo < hi && lo' < hi' && Leaves(lo, hi) == Leaves(lo', hi')
    ensures lo == lo' && hi == hi'
  {
    assert lo in Leaves(lo, hi) && lo' in Leaves(lo', hi');
    assert hi - 1 in Leaves(lo, hi) && hi' - 1 in Leaves(lo', hi');
  }

  lemma JoinedKey(w: nat, n: nat, p: nat)
    requires IsPow2(w) && 0 < n <= w && Inner(w, p)
    ensures NodeKey(w, n, p) == Aggregate(SetScheme(), NodeKey(w, n, LeftOf(w, p)), NodeKey(w, n, RightOf(w, p)))
  {
    ChildRanges(w, p);
    var l, r := LeftOf(w, p), RightOf(w, p);
    if Lo(w, r) < n {
      assert Leaves(Lo(w, p), Min(Hi(w, p), n)) == Leaves(Lo(w, l), Min(Hi(w, l), n)) + Leaves(Lo(w, r), Min(Hi(w, r), n));
    }
  }

  lemma FullTreeBuilt(n: nat)
    requires n > 0
    ensures KeysBuilt(SetScheme(), LeavesWidth(n), Validators(n), FullTree(n))
    ensures DistinctAggregates(LeavesWidth(n), n, FullTree(n))
  {
    var w, t := LeavesWidth(n), FullTree(n);
    forall j | 0 <= j < w ensures t[j] == if j < n then Some({j}) else None {
      assert j < n ==> Leaves(j, j + 1) == {j};
    }
    forall p | Inner(w, p) ensures t[p] == Aggregate(SetScheme(), t[LeftOf(w, p)], t[RightOf(w, p)]) {
      JoinedKey(w, n, p);
    }
    forall i, j | Node(w, i) && Node(w, j) && t[i].Some? && t[i] == t[j]
      ensures Lo(w, i) == Lo(w, j) && Min(Hi(w, i), n) == Min(Hi(w, j), n)
    {
      RangeNonEmpty(w, i);
      RangeNonEmpty(w, j);
      LeavesDetermine(Lo(w, i), Min(Hi(w, i), n), Lo(w, j), Min(Hi(w, j), n));
    }
  }

  lemma FullTreeSigned(n: nat)
    requires n > 0
    ensures
      var w, t := LeavesWidth(n), FullTree(n);
      Sound(SetScheme(), t, t) && UpClosed(w, t, t) && t[Root(w)].Some?
  {
    var w, t := LeavesWidth(n), FullTree(n);
    RootAbove(w, 0);
    AboveIsRange(w, Root(w), 0);
    forall p | Inner(w, p) ensures ClosedAt(w, t, t, p) {
      JoinedKey(w, n, p);
    }
  }

  lemma SetSchemeOk()
    ensures Additive(SetScheme()) && Binding(SetScheme())
  {
    forall s: set<nat>, t: set<nat> ensures SetScheme().addSigs(s, t) == SetScheme().addSigs(t, s) {
      assert s + t == t + s;
    }
  }

  /** For every number of keys the tree accepts beyond 32768 there is such a tree that is refused by a
    tree over the same keys. */
  lemma LargeTreeRefused(n: nat)
    requires 32768 < n <= MAX_KEYS
    ensures
      var w, t, ids := LeavesWidth(n), FullTree(n), [Root(LeavesWidth(n)) as nat];
      && ListsTopmost(w, t, ids) && AllSigned(t, ids)
      && !MergeAll(SetScheme(), w, t, NoSigs(w), Entries(t, ids)).ok
  {
    SetSchemeOk();
    FullTreeBuilt(n);
    FullTreeSigned(n);
    var w, t := LeavesWidth(n), FullTree(n);
    FullTreeIff(SetScheme(), w, Validators(n), t, t);
  }
}
