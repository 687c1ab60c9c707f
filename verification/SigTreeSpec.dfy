/** What the signature tree stores, as sequences over the layout of TreeShape.

  Keys and signatures are opaque values of a scheme. An absent key or signature (the zero value of
  the engine) is `None`; that no real aggregate equals the zero value is a premise of the model. */
module SigTreeSpec {
  import opened Options
  import opened TreeShape

  /** The operations the tree uses, for one fixed message. */
  datatype Scheme<!K, !S> = Scheme(
    addKeys: (K, K) -> K,
    addSigs: (S, S) -> S,
    valid: (K, S) -> bool)

  ghost predicate Associative<K(!new), S>(sch: Scheme<K, S>) {
    forall a, b, c :: sch.addKeys(sch.addKeys(a, b), c) == sch.addKeys(a, sch.addKeys(b, c))
  }

  /** Aggregation of signatures is commutative, and an aggregate of valid signatures is valid for
    the aggregate of their keys. */
  ghost predicate Additive<K(!new), S(!new)>(sch: Scheme<K, S>) {
    && (forall s, t :: sch.addSigs(s, t) == sch.addSigs(t, s))
    && (forall k, l, s, t :: sch.valid(k, s) && sch.valid(l, t) ==>
          sch.valid(sch.addKeys(k, l), sch.addSigs(s, t)))
  }

  // ----- Keys -----

  function Aggregate<K, S>(sch: Scheme<K, S>, a: Option<K>, b: Option<K>): Option<K> {
    if b.None? then a else if a.None? then b else Some(sch.addKeys(a.value, b.value))
  }

  /** The tree of keys over `leaf`, padded on the right. */
  ghost predicate KeysBuilt<K, S>(sch: Scheme<K, S>, w: nat, leaf: seq<K>, keys: seq<Option<K>>) {
    && IsPow2(w) && 0 < |leaf| <= w && |keys| == 2 * w - 1
    && (forall j :: 0 <= j < w ==> keys[j] == if j < |leaf| then Some(leaf[j]) else None)
    && (forall p :: Inner(w, p) ==> keys[p] == Aggregate(sch, keys[LeftOf(w, p)], keys[RightOf(w, p)]))
  }

  /** The aggregate, in order, of the real keys among leaves `lo` .. `hi - 1`. */
  function AggRange<K, S>(sch: Scheme<K, S>, leaf: seq<K>, lo: nat, hi: nat): Option<K>
    requires lo <= hi
  {
    if lo == hi then None
    else if hi > |leaf| then AggRange(sch, leaf, lo, hi - 1)
    else Aggregate(sch, AggRange(sch, leaf, lo, hi - 1), Some(leaf[hi - 1]))
  }

  lemma {:induction false} AggSplit<K(!new), S>(sch: Scheme<K, S>, leaf: seq<K>, lo: nat, mid: nat, hi: nat)
    requires Associative(sch) && lo <= mid <= hi
    ensures AggRange(sch, leaf, lo, hi)
         == Aggregate(sch, AggRange(sch, leaf, lo, mid), AggRange(sch, leaf, mid, hi))
  {
    if mid < hi { AggSplit(sch, leaf, lo, mid, hi - 1); }
  }

  /** Each node's key is the aggregate of exactly the real leaf keys beneath it. */
  lemma {:induction false} KeyIsAggregate<K(!new), S>(sch: Scheme<K, S>, w: nat, leaf: seq<K>,
                                                      keys: seq<Option<K>>, p: nat)
    requires Associative(sch) && KeysBuilt(sch, w, leaf, keys) && Node(w, p)
    ensures Lo(w, p) < Hi(w, p)
    ensures keys[p] == AggRange(sch, leaf, Lo(w, p), Hi(w, p))
    decreases p
  {
    if p < w {
      assert AggRange(sch, leaf, p, p) == None;
    } else {
      ChildRanges(w, p);
      KeyIsAggregate(sch, w, leaf, keys, LeftOf(w, p));
      KeyIsAggregate(sch, w, leaf, keys, RightOf(w, p));
      AggSplit(sch, leaf, Lo(w, p), Hi(w, LeftOf(w, p)), Hi(w, p));
    }
  }

  /** A node has a key exactly when a real leaf lies beneath it. */
  lemma {:induction false} KeyedIffRealLeaf<K, S>(sch: Scheme<K, S>, w: nat, leaf: seq<K>,
                                                  keys: seq<Option<K>>, p: nat)
    requires KeysBuilt(sch, w, leaf, keys) && Node(w, p)
    ensures keys[p].Some? <==> Lo(w, p) < |leaf|
    decreases p
  {
    if p >= w {
      ChildRanges(w, p);
      KeyedIffRealLeaf(sch, w, leaf, keys, LeftOf(w, p));
      KeyedIffRealLeaf(sch, w, leaf, keys, RightOf(w, p));
    }
  }

  // ----- Signatures -----

  /** The signatures after adding `sig` at `idx`, with everything it completes towards the root. */
  ghost function AddSig<K, S>(sch: Scheme<K, S>, w: nat, keys: seq<Option<K>>, sigs: seq<Option<S>>,
                              idx: nat, sig: S): (r: seq<Option<S>>)
    requires |keys| == |sigs| == 2 * w - 1 && Node(w, idx)
    ensures |r| == |sigs|
    decreases 2 * w - idx
  {
    var s1 := sigs[idx := Some(sig)];
    if idx == Root(w) then s1
    else
      var p, nb := Parent(w, idx), Sibling(idx);
      if s1[p].Some? then s1
      else if keys[nb].None? then AddSig(sch, w, keys, s1, p, sig)
      else if s1[nb].None? then s1
      else AddSig(sch, w, keys, s1, p, sch.addSigs(sig, s1[nb].value))
  }

  /** Every stored signature is valid for the key at its own index. */
  ghost predicate Sound<K, S>(sch: Scheme<K, S>, keys: seq<Option<K>>, sigs: seq<Option<S>>) {
    && |keys| == |sigs|
    && forall i :: 0 <= i < |sigs| && sigs[i].Some? ==>
         keys[i].Some? && sch.valid(keys[i].value, sigs[i].value)
  }

  /** `p` is signed whenever its children leave nothing missing. */
  predicate ClosedAt<K, S>(w: nat, keys: seq<Option<K>>, sigs: seq<Option<S>>, p: nat)
    requires |keys| == |sigs| == 2 * w - 1 && Inner(w, p)
  {
    var l, r := LeftOf(w, p), RightOf(w, p);
    sigs[l].Some? && (sigs[r].Some? || keys[r].None?) ==> sigs[p].Some?
  }

  ghost predicate UpClosed<K, S>(w: nat, keys: seq<Option<K>>, sigs: seq<Option<S>>) {
    && |keys| == |sigs| == 2 * w - 1
    && forall p :: Inner(w, p) ==> ClosedAt(w, keys, sigs, p)
  }

  /** Upward closed except possibly at `q`. */
  ghost predicate UpClosedBut<K, S>(w: nat, keys: seq<Option<K>>, sigs: seq<Option<S>>, q: nat) {
    && |keys| == |sigs| == 2 * w - 1
    && forall p :: Inner(w, p) && p != q ==> ClosedAt(w, keys, sigs, p)
  }

  /** `i` or some node above it is signed. */
  predicate SignedAbove<S>(w: nat, sigs: seq<Option<S>>, i: nat)
    requires |sigs| == 2 * w - 1 && Node(w, i)
    decreases 2 * w - i
  {
    sigs[i].Some? || (i != Root(w) && SignedAbove(w, sigs, Parent(w, i)))
  }

  /** The real leaves accounted for by the stored signatures. */
  ghost function Covered<S>(w: nat, n: nat, sigs: seq<Option<S>>): set<nat>
    requires |sigs| == 2 * w - 1 && n <= w
  {
    set j: nat | j < n && SignedAbove(w, sigs, j)
  }

  ghost function Beneath(w: nat, n: nat, a: nat): set<nat>
    requires n <= w
  {
    set j: nat | j < n && Above(w, a, j)
  }

  lemma {:induction false} SignedAboveIff<S>(w: nat, sigs: seq<Option<S>>, i: nat)
    requires |sigs| == 2 * w - 1 && Node(w, i)
    ensures SignedAbove(w, sigs, i) <==> exists a :: Node(w, a) && Above(w, a, i) && sigs[a].Some?
    decreases 2 * w - i
  {
    if i != Root(w) {
      SignedAboveIff(w, sigs, Parent(w, i));
    }
    if sigs[i].Some? {
      assert Above(w, i, i);
    } else if SignedAbove(w, sigs, i) {
      var a :| Node(w, a) && Above(w, a, Parent(w, i)) && sigs[a].Some?;
      assert Above(w, a, i);
    }
  }

  lemma {:induction false} SignedAboveUpdate<S>(w: nat, sigs: seq<Option<S>>, idx: nat, sig: S, i: nat)
    requires |sigs| == 2 * w - 1 && Node(w, idx) && Node(w, i)
    ensures SignedAbove(w, sigs[idx := Some(sig)], i) <==> SignedAbove(w, sigs, i) || Above(w, idx, i)
    decreases 2 * w - i
  {
    if i != Root(w) { SignedAboveUpdate(w, sigs, idx, sig, Parent(w, i)); }
  }

  lemma CoveredUpdate<S>(w: nat, n: nat, sigs: seq<Option<S>>, idx: nat, sig: S)
    requires |sigs| == 2 * w - 1 && n <= w && Node(w, idx)
    ensures Covered(w, n, sigs[idx := Some(sig)]) == Covered(w, n, sigs) + Beneath(w, n, idx)
  {
    forall j: nat | j < n
      ensures SignedAbove(w, sigs[idx := Some(sig)], j) <==> SignedAbove(w, sigs, j) || Above(w, idx, j)
    {
      SignedAboveUpdate(w, sigs, idx, sig, j);
    }
  }

  lemma BeneathParent(w: nat, n: nat, i: nat)
    requires n <= w && Node(w, i) && i != Root(w)
    ensures Beneath(w, n, Parent(w, i)) <= Beneath(w, n, i) + Beneath(w, n, Sibling(i))
    ensures Node(w, Sibling(i))
  {
    var p := Parent(w, i);
    forall j: nat | j < n && Above(w, p, j) ensures Above(w, i, j) || Above(w, Sibling(i), j) {
      AboveThroughChild(w, p, j);
    }
  }

  lemma BeneathSigned<S>(w: nat, n: nat, sigs: seq<Option<S>>, i: nat)
    requires |sigs| == 2 * w - 1 && n <= w && Node(w, i) && sigs[i].Some?
    ensures Beneath(w, n, i) <= Covered(w, n, sigs)
  {
    forall j: nat | j < n && Above(w, i, j) ensures SignedAbove(w, sigs, j) {
      SignedAboveIff(w, sigs, j);
    }
  }

  lemma BeneathKeyless<K, S>(sch: Scheme<K, S>, w: nat, leaf: seq<K>, keys: seq<Option<K>>, i: nat)
    requires KeysBuilt(sch, w, leaf, keys) && Node(w, i) && keys[i].None?
    ensures Beneath(w, |leaf|, i) == {}
  {
    KeyedIffRealLeaf(sch, w, leaf, keys, i);
    forall j: nat | j < |leaf| ensures !Above(w, i, j) {
      AboveIsRange(w, i, j);
    }
  }

  /** Adding a signature covers exactly the real leaves beneath it; cascading covers nothing more. */
  lemma {:induction false} AddSigCovered<K, S>(sch: Scheme<K, S>, w: nat, leaf: seq<K>, keys: seq<Option<K>>,
                                               sigs: seq<Option<S>>, idx: nat, sig: S)
    requires KeysBuilt(sch, w, leaf, keys) && |sigs| == |keys| && Node(w, idx)
    ensures Covered(w, |leaf|, AddSig(sch, w, keys, sigs, idx, sig))
         == Covered(w, |leaf|, sigs) + Beneath(w, |leaf|, idx)
    decreases 2 * w - idx
  {
    var n := |leaf|;
    var s1 := sigs[idx := Some(sig)];
    CoveredUpdate(w, n, sigs, idx, sig);
    if idx != Root(w) && s1[Parent(w, idx)].None? {
      var p, nb := Parent(w, idx), Sibling(idx);
      BeneathParent(w, n, idx);
      if keys[nb].None? {
        BeneathKeyless(sch, w, leaf, keys, nb);
        AddSigCovered(sch, w, leaf, keys, s1, p, sig);
      } else if s1[nb].Some? {
        BeneathSigned(w, n, s1, nb);
        AddSigCovered(sch, w, leaf, keys, s1, p, sch.addSigs(sig, s1[nb].value));
      }
    }
  }

  /** Adding a signature restores upward closure. */
  lemma {:induction false} AddSigUpClosed<K, S>(sch: Scheme<K, S>, w: nat, keys: seq<Option<K>>,
                                                sigs: seq<Option<S>>, idx: nat, sig: S)
    requires Node(w, idx) && UpClosedBut(w, keys, sigs, idx)
    ensures UpClosed(w, keys, AddSig(sch, w, keys, sigs, idx, sig))
    decreases 2 * w - idx
  {
    var s1 := sigs[idx := Some(sig)];
    if idx == Root(w) {
      forall p | Inner(w, p) ensures ClosedAt(w, keys, s1, p) {
        if p != idx { assert ClosedAt(w, keys, sigs, p); }
      }
    } else {
      var q, nb := Parent(w, idx), Sibling(idx);
      forall p | Inner(w, p) && p != q ensures ClosedAt(w, keys, s1, p) {
        if p != idx {
          assert LeftOf(w, p) != idx && RightOf(w, p) != idx;
          assert ClosedAt(w, keys, sigs, p);
        }
      }
      if s1[q].Some? || (keys[nb].Some? && s1[nb].None?) {
        assert ClosedAt(w, keys, s1, q);
      } else if keys[nb].None? {
        AddSigUpClosed(sch, w, keys, s1, q, sig);
      } else {
        AddSigUpClosed(sch, w, keys, s1, q, sch.addSigs(sig, s1[nb].value));
      }
    }
  }

  /** Adding a signature touches only its own node and nodes above it. */
  lemma {:induction false} AddSigOnlyAbove<K, S>(sch: Scheme<K, S>, w: nat, keys: seq<Option<K>>,
                                                 sigs: seq<Option<S>>, idx: nat, sig: S, x: nat)
    requires |keys| == |sigs| == 2 * w - 1 && Node(w, idx) && Node(w, x) && !Above(w, x, idx)
    ensures AddSig(sch, w, keys, sigs, idx, sig)[x] == sigs[x]
    decreases 2 * w - idx
  {
    var s1 := sigs[idx := Some(sig)];
    if idx != Root(w) && s1[Parent(w, idx)].None? {
      var p, nb := Parent(w, idx), Sibling(idx);
      if keys[nb].None? {
        AddSigOnlyAbove(sch, w, keys, s1, p, sig, x);
      } else if s1[nb].Some? {
        AddSigOnlyAbove(sch, w, keys, s1, p, sch.addSigs(sig, s1[nb].value), x);
      }
    }
  }

  /** Starting from valid signatures, a valid signature and everything it completes are valid. */
  lemma {:induction false} AddSigSound<K(!new), S(!new)>(sch: Scheme<K, S>, w: nat, leaf: seq<K>,
      keys: seq<Option<K>>, sigs: seq<Option<S>>, idx: nat, sig: S)
    requires Additive(sch) && KeysBuilt(sch, w, leaf, keys) && Sound(sch, keys, sigs)
    requires Node(w, idx) && keys[idx].Some? && sch.valid(keys[idx].value, sig)
    ensures Sound(sch, keys, AddSig(sch, w, keys, sigs, idx, sig))
    decreases 2 * w - idx
  {
    var s1 := sigs[idx := Some(sig)];
    assert Sound(sch, keys, s1);
    if idx != Root(w) && s1[Parent(w, idx)].None? {
      var p, nb := Parent(w, idx), Sibling(idx);
      assert keys[p] == Aggregate(sch, keys[LeftOf(w, p)], keys[RightOf(w, p)]);
      if keys[nb].None? {
        PaddingIsRight(sch, w, leaf, keys, idx);
        AddSigSound(sch, w, leaf, keys, s1, p, sig);
      } else if s1[nb].Some? {
        AddSigSound(sch, w, leaf, keys, s1, p, sch.addSigs(sig, s1[nb].value));
      }
    }
  }

  /** Keyless siblings of keyed nodes are on the right. */
  lemma PaddingIsRight<K, S>(sch: Scheme<K, S>, w: nat, leaf: seq<K>, keys: seq<Option<K>>, idx: nat)
    requires KeysBuilt(sch, w, leaf, keys) && Node(w, idx) && idx != Root(w)
    requires keys[idx].Some?
    ensures Node(w, Sibling(idx))
    ensures keys[Sibling(idx)].None? ==> idx % 2 == 0
  {
    var p := Parent(w, idx);
    ChildRanges(w, p);
    KeyedIffRealLeaf(sch, w, leaf, keys, LeftOf(w, p));
    KeyedIffRealLeaf(sch, w, leaf, keys, RightOf(w, p));
  }

  // ----- Any sequence of additions -----

  ghost function AddMany<K, S>(sch: Scheme<K, S>, w: nat, keys: seq<Option<K>>, sigs: seq<Option<S>>,
                               adds: seq<(nat, S)>): (r: seq<Option<S>>)
    requires |keys| == |sigs| == 2 * w - 1 && forall k :: 0 <= k < |adds| ==> Node(w, adds[k].0)
    ensures |r| == |sigs|
  {
    if |adds| == 0 then sigs
    else AddSig(sch, w, keys, AddMany(sch, w, keys, sigs, adds[..|adds| - 1]), adds[|adds| - 1].0, adds[|adds| - 1].1)
  }

  ghost predicate UnderAdded<S>(w: nat, adds: seq<(nat, S)>, j: nat)
    requires Node(w, j)
  {
    exists k :: 0 <= k < |adds| && Above(w, adds[k].0, j)
  }

  ghost predicate AllValidFor<K, S>(sch: Scheme<K, S>, keys: seq<Option<K>>, adds: seq<(nat, S)>) {
    forall k :: 0 <= k < |adds| ==>
      adds[k].0 < |keys| && keys[adds[k].0].Some? && sch.valid(keys[adds[k].0].value, adds[k].1)
  }

  /** After any additions to an empty tree, the signers are exactly the real leaves under an added node,
    the tree is upward closed, and what is stored is valid if everything added was. */
  lemma {:induction false} AnyAdditions<K(!new), S(!new)>(sch: Scheme<K, S>, w: nat, leaf: seq<K>, keys: seq<Option<K>>,
      empty: seq<Option<S>>, adds: seq<(nat, S)>)
    requires KeysBuilt(sch, w, leaf, keys) && |empty| == |keys| && forall i :: 0 <= i < |empty| ==> empty[i].None?
    requires forall k :: 0 <= k < |adds| ==> Node(w, adds[k].0)
    ensures
      var r := AddMany(sch, w, keys, empty, adds);
      && UpClosed(w, keys, r)
      && (forall j: nat :: j < |leaf| ==> (j in Covered(w, |leaf|, r) <==> UnderAdded(w, adds, j)))
      && (Additive(sch) && AllValidFor(sch, keys, adds) ==> Sound(sch, keys, r))
  {
    if |adds| == 0 {
      forall j: nat | j < |leaf| ensures j !in Covered(w, |leaf|, empty) { SignedAboveIff(w, empty, j); }
    } else {
      var front, x := adds[..|adds| - 1], adds[|adds| - 1];
      AnyAdditions(sch, w, leaf, keys, empty, front);
      var r := AddMany(sch, w, keys, empty, front);
      assert UpClosedBut(w, keys, r, x.0);
      AddSigUpClosed(sch, w, keys, r, x.0, x.1);
      AddSigCovered(sch, w, leaf, keys, r, x.0, x.1);
      forall j: nat | j < |leaf| ensures UnderAdded(w, adds, j) <==> UnderAdded(w, front, j) || Above(w, x.0, j) {
        UnderOneMore(w, adds, j);
      }
      if Additive(sch) && AllValidFor(sch, keys, adds) {
        assert forall k :: 0 <= k < |front| ==> front[k] == adds[k];
        AddSigSound(sch, w, leaf, keys, r, x.0, x.1);
      }
    }
  }

  lemma UnderOneMore<S>(w: nat, adds: seq<(nat, S)>, j: nat)
    requires |adds| > 0 && Node(w, j)
    ensures UnderAdded(w, adds, j) <==> UnderAdded(w, adds[..|adds| - 1], j) || Above(w, adds[|adds| - 1].0, j)
  {
    var front := adds[..|adds| - 1];
    assert forall k :: 0 <= k < |front| ==> front[k] == adds[k];
  }

  // ----- Topmost signed nodes -----

  /** `i` is signed and nothing above it is. */
  predicate Topmost<S>(w: nat, sigs: seq<Option<S>>, i: nat)
    requires |sigs| == 2 * w - 1
  {
    && Node(w, i)
    && sigs[i].Some?
    && (i != Root(w) ==> !SignedAbove(w, sigs, Parent(w, i)))
  }

  /** Topmost nodes are never above one another, so their leaf ranges are disjoint. */
  lemma TopmostDisjoint<S>(w: nat, sigs: seq<Option<S>>, a: nat, b: nat)
    requires IsPow2(w) && |sigs| == 2 * w - 1
    requires Topmost(w, sigs, a) && Topmost(w, sigs, b) && a != b
    ensures !Above(w, a, b) && !Above(w, b, a)
    ensures Hi(w, a) <= Lo(w, b) || Hi(w, b) <= Lo(w, a)
  {
    if Above(w, a, b) {
      SignedAboveIff(w, sigs, Parent(w, b));
    }
    if Above(w, b, a) {
      SignedAboveIff(w, sigs, Parent(w, a));
    }
    UnrelatedRangesDisjoint(w, a, b);
  }

  /** Whatever is covered is covered by a topmost node. */
  lemma {:induction false} TopmostCovers<S>(w: nat, sigs: seq<Option<S>>, i: nat) returns (a: nat)
    requires |sigs| == 2 * w - 1 && Node(w, i) && SignedAbove(w, sigs, i)
    ensures Topmost(w, sigs, a) && Above(w, a, i)
    decreases 2 * w - i
  {
    if i != Root(w) && SignedAbove(w, sigs, Parent(w, i)) {
      a := TopmostCovers(w, sigs, Parent(w, i));
    } else {
      a := i;
    }
  }
}
