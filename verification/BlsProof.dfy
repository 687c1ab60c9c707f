/** The aggregating signature proof: one message, one tree, merged with full and sparse proofs. */
module BlsProof {
  import opened Options
  import opened TreeShape
  import opened SigTreeSpec
  import opened SigTree
  import opened BlsProofSpec

  datatype SparseProof<S> = SparseProof(pubKeyHash: string, signatures: seq<SparseSig<S>>)

  datatype MergeResult = MergeResult(allValid: bool, increased: bool, wasStrictSuperset: bool)

  datatype AddError = UnknownKey | DifferentSignature | VerificationFailed

  class SignatureProof<K(==, !new), S(==, !new)> {
    const msg: string
    const keyHash: string
    const tree: Tree<K, S>

    /** The proof only ever holds signatures that verified. */
    ghost predicate Valid()
      reads this, tree, tree.keys, tree.sigs
    {
      tree.Valid() && tree.AllValid()
    }

    ghost function Stored(): seq<Option<S>>
      reads this, tree, tree.sigs
    {
      tree.sigs[..]
    }

    /** An empty proof over trusted keys. */
    constructor (msg: string, sch: Scheme<K, S>, trustedKeys: seq<K>, pubKeyHash: string)
      requires 0 < |trustedKeys| <= MAX_KEYS
      ensures Valid() && fresh(tree) && fresh(tree.keys) && fresh(tree.sigs)
      ensures tree.leaf == trustedKeys && tree.sch == sch && tree.sigBits == {}
    {
      this.msg := msg;
      keyHash := pubKeyHash;
      tree := new Tree(sch, trustedKeys);
      new;
      EmptyTree(tree.Width(), tree.nKeys, tree.keys[..], tree.sigs[..]);
    }

    /** A proof for the same message and keys, with no signatures. */
    constructor Derive(p: SignatureProof<K, S>)
      requires p.Valid()
      ensures Valid() && fresh(tree) && fresh(tree.sigs)
      ensures msg == p.msg && keyHash == p.keyHash && tree.keys == p.tree.keys
      ensures tree.leaf == p.tree.leaf && tree.sch == p.tree.sch
      ensures Stored() == NoSigs(tree.Width())
    {
      msg := p.msg;
      keyHash := p.keyHash;
      tree := new Tree.Derive(p.tree);
      new;
      assert tree.sigs[..] == NoSigs(tree.Width());
    }

    /** The first node whose key is `k`, aggregates included, or -1. */
    method Index(k: K) returns (idx: int)
      requires Valid()
      ensures idx >= 0 ==> Node(tree.Width(), idx) && tree.keys[idx] == Some(k)
      ensures idx < 0 ==> forall i :: 0 <= i < tree.keys.Length ==> tree.keys[i] != Some(k)
    {
      for i := 0 to tree.keys.Length
        invariant forall j :: 0 <= j < i ==> tree.keys[j] != Some(k)
      {
        if tree.keys[i] == Some(k) {
          return i;
        }
      }
      return -1;
    }

    /** Adds the local signature for one key. A known key with a valid signature is always accepted;
      a signature already held must be equal. */
    method AddSignature(sig: S, key: K) returns (err: Option<AddError>, ghost at: int)
      requires Valid() && Additive(tree.sch)
      modifies tree`sigBits, tree.sigs
      ensures Valid()
      ensures err.Some? ==> Stored() == old(Stored())
      ensures err == Some(UnknownKey) <==> forall i :: 0 <= i < tree.keys.Length ==> tree.keys[i] != Some(key)
      ensures err != Some(UnknownKey) ==> Node(tree.Width(), at) && tree.keys[at] == Some(key)
      ensures err == Some(DifferentSignature) ==> old(Stored())[at] !in {None, Some(sig)}
      ensures err == Some(VerificationFailed) ==> !tree.sch.valid(key, sig)
      ensures err.None? ==> tree.sigBits == old(tree.sigBits) + Beneath(tree.Width(), tree.nKeys, at)
      ensures err.None? ==>
                Merged(Stored(), true) == MergeAt(tree.sch, tree.Width(), tree.keys[..], old(Stored()), at, sig)
    {
      ghost var before := tree.sigs[..];
      var idx := Index(key);
      at := idx;
      if idx < 0 {
        return Some(UnknownKey), at;
      }
      var _, have, _ := tree.Get(idx);
      if have.Some? {
        if have.value != sig {
          return Some(DifferentSignature), at;
        }
        BeneathSigned(tree.Width(), tree.nKeys, before, idx);
        return None, at;
      }
      if !tree.sch.valid(key, sig) {
        return Some(VerificationFailed), at;
      }
      AddSigSound(tree.sch, tree.Width(), tree.leaf, tree.keys[..], before, idx, sig);
      tree.AddSignature(idx, sig);
      return None, at;
    }

    /** Adds one incoming signature at a node index; reports whether it is acceptable. */
    method AddAt(id: nat, sig: S) returns (ok: bool)
      requires Valid() && Additive(tree.sch) && Node(tree.Width(), id)
      modifies tree`sigBits, tree.sigs
      ensures Valid()
      ensures Merged(Stored(), ok) == MergeAt(tree.sch, tree.Width(), tree.keys[..], old(Stored()), id, sig)
    {
      var haveKey, haveSig, _ := tree.Get(id);
      if haveSig.Some? {
        return haveSig.value == sig;
      }
      if haveKey.None? || !tree.sch.valid(haveKey.value, sig) {
        return false;
      }
      AddSigSound(tree.sch, tree.Width(), tree.leaf, tree.keys[..], tree.sigs[..], id, sig);
      tree.AddSignature(id, sig);
      return true;
    }

    /** Merges untrusted sparse signatures. */
    method MergeSparse(s: SparseProof<S>) returns (res: MergeResult)
      requires Valid() && Additive(tree.sch)
      modifies tree`sigBits, tree.sigs
      ensures Valid()
      ensures s.pubKeyHash != keyHash ==>
                res == MergeResult(false, false, false) && Stored() == old(Stored())
      ensures s.pubKeyHash == keyHash ==>
                Merged(Stored(), res.allValid)
                == MergeAll(tree.sch, tree.Width(), tree.keys[..], old(Stored()), s.signatures)
      ensures old(tree.sigBits) <= tree.sigBits
      ensures s.pubKeyHash == keyHash ==> (res.increased <==> tree.sigBits != old(tree.sigBits))
    {
      if s.pubKeyHash != keyHash {
        return MergeResult(false, false, false);
      }
      ghost var w, k, before := tree.Width(), tree.keys[..], tree.sigs[..];
      var countBefore := |tree.sigBits|;
      var allValid := true;
      for n := 0 to |s.signatures|
        invariant Valid() && tree.keys[..] == k
        invariant Merged(tree.sigs[..], allValid) == MergeAll(tree.sch, w, k, before, s.signatures[..n])
      {
        MergeNext(tree.sch, w, k, before, s.signatures, n);
        var ss := s.signatures[n];
        if ss.keyId.Malformed? || !(0 <= ss.keyId.n < tree.keys.Length) {
          allValid := false;
        } else {
          var ok := AddAt(ss.keyId.n, ss.sig);
          allValid := allValid && ok;
        }
      }
      assert s.signatures[..|s.signatures|] == s.signatures;
      MergeAllSafe(tree.sch, w, tree.leaf, k, before, s.signatures);
      SubsetCount(old(tree.sigBits), tree.sigBits);
      res := MergeResult(allValid, |tree.sigBits| > countBefore, false);
    }

    /** The wire form: the topmost signatures, each under its node index. */
    method AsSparse() returns (s: SparseProof<S>, ghost ids: seq<nat>)
      requires Valid()
      ensures s.pubKeyHash == keyHash
      ensures ListsTopmost(tree.Width(), Stored(), ids) && AllSigned(Stored(), ids)
      ensures s.signatures == Entries(Stored(), ids)
    {
      var found := tree.SparseIndices([]);
      ids := found;
      assert found[0..] == found;
      ghost var sg := tree.sigs[..];
      assert AllSigned(sg, found) by {
        forall id | id in found ensures id < |sg| && sg[id].Some? { assert Topmost(tree.Width(), sg, id); }
      }
      var out := [];
      for n := 0 to |found|
        invariant out == Entries(sg, found)[..n]
      {
        EntriesAt(sg, found, n);
        var _, sig, _ := tree.Get(found[n]);
        out := out + [SparseSig(EncodeId(found[n]), sig.value)];
      }
      s := SparseProof(keyHash, out);
    }

    /** Whether a signature is held under a sparse identifier, and whether the identifier is a node's. */
    method HasSparseKeyID(keyId: KeyId) returns (has: bool, valid: bool)
      requires Valid()
      ensures valid <==> keyId.KeyId? && Node(tree.Width(), keyId.n)
      ensures has <==> valid && Stored()[keyId.n].Some?
    {
      if keyId.Malformed? {
        return false, false;
      }
      var _, sig, ok := tree.Get(keyId.n);
      if !ok {
        return false, false;
      }
      return sig.Some?, true;
    }

    /** Merges the signature another proof over the same keys holds at a node. */
    method MergeNode(o: SignatureProof<K, S>, id: nat) returns (ok: bool, grew: bool)
      requires Valid() && o.Valid() && Additive(tree.sch)
      requires o.tree.leaf == tree.leaf && o.tree.sch == tree.sch
      requires tree != o.tree && tree.sigs != o.tree.sigs && o.tree.keys as object != tree.sigs
      requires Node(tree.Width(), id) && o.Stored()[id].Some?
      modifies tree`sigBits, tree.sigs
      ensures Valid()
      ensures tree.sigBits == old(tree.sigBits) + Beneath(tree.Width(), tree.nKeys, id)
      ensures grew <==> tree.sigBits != old(tree.sigBits)
      ensures ok == AgreeAt(old(Stored()), o.Stored(), id)
      ensures OnlyAbove(tree.Width(), old(Stored()), Stored(), id)
    {
      var _, otherSig, _ := o.tree.Get(id);
      SameKeys(tree.sch, tree.Width(), tree.leaf, tree.keys[..], o.tree.keys[..], id);
      MergeAtSafe(tree.sch, tree.Width(), tree.leaf, tree.keys[..], tree.sigs[..], id, otherSig.value);
      MergeAtOnlyAbove(tree.sch, tree.Width(), tree.keys[..], tree.sigs[..], id, otherSig.value);
      var countBefore := |tree.sigBits|;
      ok := AddAt(id, otherSig.value);
      SubsetCount(old(tree.sigBits), tree.sigBits);
      grew := |tree.sigBits| > countBefore;
    }

    /** One more of the other proof's topmost nodes. */
    method MergeNodeAt(o: SignatureProof<K, S>, ids: seq<nat>, n: nat, ghost before: seq<Option<S>>, ghost bits: set<nat>,
                     allValid: bool, increased: bool) returns (allValid': bool, increased': bool)
      requires Valid() && o.Valid() && Additive(tree.sch)
      requires o.tree.leaf == tree.leaf && o.tree.sch == tree.sch
      requires tree != o.tree && tree.sigs != o.tree.sigs && o.tree.keys as object != tree.sigs
      requires ListsTopmost(tree.Width(), o.Stored(), ids) && n < |ids|
      requires PassAt(tree.Width(), tree.nKeys, o.Stored(), ids, before, Stored(), bits, tree.sigBits, n, allValid, increased)
      modifies tree`sigBits, tree.sigs
      ensures Valid()
      ensures PassAt(tree.Width(), tree.nKeys, o.Stored(), ids, before, Stored(), bits, tree.sigBits, n + 1, allValid', increased')
    {
      ghost var cur, curBits := tree.sigs[..], tree.sigBits;
      assert ids[n] in ids;
      var ok, grew := MergeNode(o, ids[n]);
      PassNext(tree.Width(), tree.nKeys, o.tree.sigs[..], ids, before, cur, tree.sigs[..], bits, curBits, tree.sigBits, n,
               allValid, increased, ok, grew);
      allValid', increased' := allValid && ok, increased || grew;
    }

    /** The pass over the other proof's topmost nodes. */
    method MergeNodes(o: SignatureProof<K, S>, ids: seq<nat>) returns (allValid: bool, increased: bool)
      requires Valid() && o.Valid() && Additive(tree.sch)
      requires o.tree.leaf == tree.leaf && o.tree.sch == tree.sch
      requires tree != o.tree && tree.sigs != o.tree.sigs && o.tree.keys as object != tree.sigs
      requires ListsTopmost(tree.Width(), o.Stored(), ids)
      modifies tree`sigBits, tree.sigs
      ensures Valid()
      ensures tree.sigBits == old(tree.sigBits) + BeneathAny(tree.Width(), tree.nKeys, ids)
      ensures increased <==> tree.sigBits != old(tree.sigBits)
      ensures allValid <==> forall id :: id in ids ==> AgreeAt(old(Stored()), o.Stored(), id)
    {
      allValid, increased := true, false;
      ghost var w, bits, before, theirs := tree.Width(), tree.sigBits, tree.sigs[..], o.tree.sigs[..];
      PassStarts(w, tree.nKeys, theirs, ids, before, bits);
      for n := 0 to |ids|
        invariant Valid() && o.tree.sigs[..] == theirs
        invariant PassAt(w, tree.nKeys, theirs, ids, before, tree.sigs[..], bits, tree.sigBits, n, allValid, increased)
      {
        allValid, increased := MergeNodeAt(o, ids, n, before, bits, allValid, increased);
      }
      PassEnds(w, tree.nKeys, theirs, ids, before, tree.sigs[..], bits, tree.sigBits, allValid, increased);
    }

    /** Merges a full proof: its topmost signatures, each verified unless already held. All are called
      valid exactly when none differs from a signature already held at its node. */
    method Merge(o: SignatureProof<K, S>) returns (res: MergeResult, ghost ids: seq<nat>)
      requires Valid() && o.Valid() && Additive(tree.sch)
      requires msg == o.msg && keyHash == o.keyHash ==> o.tree.leaf == tree.leaf && o.tree.sch == tree.sch
      requires tree != o.tree && tree.sigs != o.tree.sigs && o.tree.keys as object != tree.sigs
      modifies tree`sigBits, tree.sigs
      ensures Valid() && o.Stored() == old(o.Stored())
      ensures msg != o.msg || keyHash != o.keyHash ==>
                res == MergeResult(false, false, false) && Stored() == old(Stored())
      ensures msg == o.msg && keyHash == o.keyHash ==>
                && tree.sigBits == old(tree.sigBits) + o.tree.sigBits
                && (res.increased <==> !(o.tree.sigBits <= old(tree.sigBits)))
                && (res.allValid <==> forall id: nat :: Topmost(tree.Width(), o.Stored(), id) ==> AgreeAt(old(Stored()), o.Stored(), id))
                && (res.wasStrictSuperset <==>
                    (res.allValid && ((o.tree.sigBits == {} && old(tree.sigBits) == {}) || old(tree.sigBits) < o.tree.sigBits)))
    {
      ids := [];
      if msg != o.msg || keyHash != o.keyHash {
        return MergeResult(false, false, false), [];
      }
      var looksSuperset := (o.tree.sigBits == {} && tree.sigBits == {}) || tree.sigBits < o.tree.sigBits;
      var otherIds := o.tree.SparseIndices([]);
      ids := otherIds;
      assert otherIds[0..] == otherIds;
      TopmostStandForAll(tree.Width(), tree.nKeys, o.tree.sigs[..], otherIds);
      var allValid, increased := MergeNodes(o, otherIds);
      res := MergeResult(allValid, increased, looksSuperset && allValid);
    }
  }

  /** What is held at the node, if anything, is what the other proof holds there. */
  predicate AgreeAt<S(==)>(mine: seq<Option<S>>, theirs: seq<Option<S>>, id: nat) {
    id < |mine| && id < |theirs| && (mine[id].None? || mine[id] == theirs[id])
  }

  lemma AgreeMeaning<S>(mine: seq<Option<S>>, theirs: seq<Option<S>>, id: nat)
    requires |mine| == |theirs| && id < |mine|
    ensures AgreeAt(mine, theirs, id) <==> (mine[id].Some? ==> theirs[id].Some? && theirs[id].value == mine[id].value)
  {
  }

  /** How far a pass over the other proof's nodes has come after `n` of them. */
  ghost predicate PassAt<S>(w: nat, nKeys: nat, theirs: seq<Option<S>>, ids: seq<nat>, before: seq<Option<S>>, cur: seq<Option<S>>,
                            bits: set<nat>, curBits: set<nat>, n: nat, allValid: bool, increased: bool)
  {
    && n <= |ids| && nKeys <= w
    && curBits == bits + BeneathAny(w, nKeys, ids[..n])
    && (increased <==> curBits != bits)
    && StillBefore(before, cur, ids, n)
    && allValid == AgreeUpTo(before, theirs, ids, n)
  }

  lemma PassStarts<S>(w: nat, nKeys: nat, theirs: seq<Option<S>>, ids: seq<nat>, before: seq<Option<S>>, bits: set<nat>)
    requires |before| == |theirs| == 2 * w - 1 && ListsTopmost(w, theirs, ids) && nKeys <= w
    ensures PassAt(w, nKeys, theirs, ids, before, before, bits, bits, 0, true, false)
  {
    StillBeforeStart(w, theirs, ids, before);
    assert BeneathAny(w, nKeys, ids[..0]) == {};
  }

  lemma PassNext<S>(w: nat, nKeys: nat, theirs: seq<Option<S>>, ids: seq<nat>, before: seq<Option<S>>, cur: seq<Option<S>>,
                    next: seq<Option<S>>, bits: set<nat>, curBits: set<nat>, nextBits: set<nat>, n: nat,
                    allValid: bool, increased: bool, ok: bool, grew: bool)
    requires IsPow2(w) && |theirs| == 2 * w - 1 && ListsTopmost(w, theirs, ids) && n < |ids|
    requires PassAt(w, nKeys, theirs, ids, before, cur, bits, curBits, n, allValid, increased)
    requires OnlyAbove(w, cur, next, ids[n]) && nextBits == curBits + Beneath(w, nKeys, ids[n])
    requires (grew <==> nextBits != curBits) && ok == AgreeAt(cur, theirs, ids[n])
    ensures PassAt(w, nKeys, theirs, ids, before, next, bits, nextBits, n + 1, allValid && ok, increased || grew)
  {
    BeneathAnyNext(w, nKeys, ids, n);
    SetStep(bits, BeneathAny(w, nKeys, ids[..n]), Beneath(w, nKeys, ids[n]));
    StillBeforeNext(w, theirs, ids, before, cur, next, n);
  }

  lemma PassEnds<S>(w: nat, nKeys: nat, theirs: seq<Option<S>>, ids: seq<nat>, before: seq<Option<S>>, cur: seq<Option<S>>,
                    bits: set<nat>, curBits: set<nat>, allValid: bool, increased: bool)
    requires PassAt(w, nKeys, theirs, ids, before, cur, bits, curBits, |ids|, allValid, increased)
    ensures curBits == bits + BeneathAny(w, nKeys, ids)
    ensures allValid <==> forall id :: id in ids ==> AgreeAt(before, theirs, id)
  {
    assert ids[..|ids|] == ids;
  }

  ghost predicate AgreeUpTo<S>(mine: seq<Option<S>>, theirs: seq<Option<S>>, ids: seq<nat>, n: nat)
    requires n <= |ids|
  {
    forall k :: 0 <= k < n ==> AgreeAt(mine, theirs, ids[k])
  }

  /** Only the node and nodes above it differ. */
  ghost predicate OnlyAbove<S>(w: nat, before: seq<Option<S>>, after: seq<Option<S>>, id: nat) {
    && |before| == |after| == 2 * w - 1 && Node(w, id)
    && forall x: nat :: Node(w, x) && !Above(w, x, id) ==> after[x] == before[x]
  }

  lemma MergeAtOnlyAbove<K, S>(sch: Scheme<K, S>, w: nat, keys: seq<Option<K>>, sigs: seq<Option<S>>, id: nat, sig: S)
    requires |keys| == |sigs| == 2 * w - 1 && Node(w, id)
    ensures OnlyAbove(w, sigs, MergeAt(sch, w, keys, sigs, id, sig).sigs, id)
  {
    forall x: nat | Node(w, x) && !Above(w, x, id) ensures MergeAt(sch, w, keys, sigs, id, sig).sigs[x] == sigs[x] {
      AddSigOnlyAbove(sch, w, keys, sigs, id, sig, x);
    }
  }

  /** The nodes still to come are as they were. */
  ghost predicate StillBefore<S>(before: seq<Option<S>>, cur: seq<Option<S>>, ids: seq<nat>, n: nat) {
    |before| == |cur| && forall k :: n <= k < |ids| ==> ids[k] < |cur| && cur[ids[k]] == before[ids[k]]
  }

  lemma StillBeforeStart<S>(w: nat, theirs: seq<Option<S>>, ids: seq<nat>, before: seq<Option<S>>)
    requires |before| == |theirs| == 2 * w - 1 && ListsTopmost(w, theirs, ids)
    ensures StillBefore(before, before, ids, 0)
  {
    forall k | 0 <= k < |ids| ensures ids[k] < |before| {
      assert ids[k] in ids;
    }
  }

  lemma StillBeforeNext<S>(w: nat, theirs: seq<Option<S>>, ids: seq<nat>, before: seq<Option<S>>,
                           cur: seq<Option<S>>, next: seq<Option<S>>, n: nat)
    requires IsPow2(w) && |theirs| == 2 * w - 1 && ListsTopmost(w, theirs, ids) && n < |ids|
    requires StillBefore(before, cur, ids, n) && OnlyAbove(w, cur, next, ids[n])
    ensures StillBefore(before, next, ids, n + 1)
  {
    forall k | n + 1 <= k < |ids| ensures ids[k] < |next| && next[ids[k]] == before[ids[k]] {
      assert ids[k] in ids && ids[n] in ids;
      TopmostDisjoint(w, theirs, ids[k], ids[n]);
    }
  }

  /** Deriving from a proof over at most 32768 keys and merging its own wire form reports all signatures
    valid and restores its signers. */
  method SparseRoundTrip<K(==, !new), S(==, !new)>(p: SignatureProof<K, S>) returns (q: SignatureProof<K, S>, res: MergeResult)
    requires p.Valid() && Additive(p.tree.sch) && p.tree.nKeys <= 32768
    ensures q.Valid() && q.tree.leaf == p.tree.leaf && q.tree.sigBits == p.tree.sigBits
    ensures res.allValid && (res.increased <==> p.tree.sigBits != {})
  {
    ghost var w, sg := p.tree.Width(), p.tree.sigs[..];
    ghost var ids;
    var s;
    s, ids := p.AsSparse();
    q := new SignatureProof.Derive(p);
    SmallTreesFit(p.tree.nKeys);
    forall id | id in ids ensures id < ID_LIMIT {
      assert Topmost(w, sg, id);
    }
    RoundTrip(p.tree.sch, w, p.tree.leaf, p.tree.keys[..], sg, ids);
    EmptyTree(w, p.tree.nKeys, p.tree.keys[..], NoSigs<S>(w));
    res := q.MergeSparse(s);
  }

  lemma SubsetCount(a: set<nat>, b: set<nat>)
    requires a <= b
    ensures |b| > |a| <==> a != b
  {
    assert b == a + (b - a);
    assert |b| == |a| + |b - a|;
  }

  /** Trees built over the same leaf keys have the same keys. */
  lemma {:induction false} SameKeys<K, S>(sch: Scheme<K, S>, w: nat, leaf: seq<K>, k1: seq<Option<K>>, k2: seq<Option<K>>, p: nat)
    requires KeysBuilt(sch, w, leaf, k1) && KeysBuilt(sch, w, leaf, k2) && Node(w, p)
    ensures k1[p] == k2[p]
    decreases p
  {
    if p >= w {
      SameKeys(sch, w, leaf, k1, k2, LeftOf(w, p));
      SameKeys(sch, w, leaf, k1, k2, RightOf(w, p));
    }
  }
}
