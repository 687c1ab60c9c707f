/** The signature tree itself: arrays filled in place, climbed on every added signature and walked
  top-down to list the signatures worth sending. */
module SigTree {
  import opened Options
  import opened TreeShape
  import opened SigTreeSpec

  const MAX_KEYS := 65535

  // ----- Facts the methods below use -----

  /** The leaves from `lo` up to, not including, `hi`. */
  function Leaves(lo: nat, hi: nat): (r: set<nat>)
    ensures forall j :: j in r <==> lo <= j < hi
  {
    if hi <= lo then {} else Leaves(lo, hi - 1) + {hi - 1}
  }

  lemma EmptyTree<K, S>(w: nat, n: nat, keys: seq<Option<K>>, sigs: seq<Option<S>>)
    requires |keys| == |sigs| == 2 * w - 1 && n <= w
    requires forall i :: 0 <= i < |sigs| ==> sigs[i].None?
    ensures Covered(w, n, sigs) == {} && UpClosed(w, keys, sigs)
  {
    forall j: nat | j < n ensures !SignedAbove(w, sigs, j) {
      SignedAboveIff(w, sigs, j);
    }
  }

  lemma RootCovers<S>(w: nat, n: nat, sigs: seq<Option<S>>)
    requires IsPow2(w) && |sigs| == 2 * w - 1 && n <= w && sigs[Root(w)].Some?
    ensures Covered(w, n, sigs) == Leaves(0, n)
  {
    forall j: nat | j < n ensures SignedAbove(w, sigs, j) {
      RootAbove(w, j);
      SignedAboveIff(w, sigs, j);
    }
  }

  lemma {:induction false} RootAbove(w: nat, i: nat)
    requires Node(w, i)
    ensures Above(w, Root(w), i)
    decreases 2 * w - i
  {
    if i != Root(w) { RootAbove(w, Parent(w, i)); }
  }

  /** The leaf range computed from a layer is the set of leaves beneath the node. */
  lemma LayerLeaves(w: nat, n: nat, start: nat, width: nat, fan: nat, o: nat)
    requires IsPow2(w) && Layer(w, start, width, fan) && o < width && n <= w
    ensures Beneath(w, n, start + o) == Leaves(o * fan, Min(o * fan + fan, n))
  {
    RangeAtOffset(w, start, width, fan, o);
    BeneathIsRange(w, n, start + o);
  }

  lemma BeneathIsRange(w: nat, n: nat, a: nat)
    requires IsPow2(w) && Node(w, a) && n <= w
    ensures Beneath(w, n, a) == Leaves(Lo(w, a), Min(Hi(w, a), n))
  {
    forall j: nat | j < n ensures Above(w, a, j) <==> Lo(w, a) <= j < Hi(w, a) {
      AboveIsRange(w, a, j);
    }
  }

  function Min(a: nat, b: nat): nat {
    if a < b then a else b
  }

  lemma ParentByLayer(w: nat, start: nat, width: nat, fan: nat, o: nat)
    requires Layer(w, start, width, fan) && o < width && start + o != Root(w)
    ensures Node(w, start + o) && start + width + o / 2 == Parent(w, start + o)
  {
    assert width > 1 && width % 2 == 0;
  }

  lemma RootIsTopmost<S>(w: nat, sigs: seq<Option<S>>)
    requires IsPow2(w) && |sigs| == 2 * w - 1 && sigs[Root(w)].Some?
    ensures ListsTopmost(w, sigs, [Root(w) as nat])
  {
    forall x: nat | Topmost(w, sigs, x) ensures x == Root(w) {
      if x != Root(w) {
        RootAbove(w, Parent(w, x));
        SignedAboveIff(w, sigs, Parent(w, x));
      }
    }
  }

  /** `r` lists, once each, the topmost nodes from `a` up to `i` and from `b` on. */
  ghost predicate Lists<S>(w: nat, sigs: seq<Option<S>>, r: seq<nat>, a: int, i: int, b: int)
    requires |sigs| == 2 * w - 1
  {
    && (forall x: nat :: x in r <==> Topmost(w, sigs, x) && (a <= x < i || b <= x))
    && (forall p, q :: 0 <= p < q < |r| ==> r[p] != r[q])
  }

  lemma ListsNext<S>(w: nat, sigs: seq<Option<S>>, r: seq<nat>, a: nat, i: nat, b: int)
    requires |sigs| == 2 * w - 1 && Lists(w, sigs, r, a, i, b) && a <= i < b
    ensures Lists(w, sigs, if Topmost(w, sigs, i) then r + [i] else r, a, i + 1, b)
  {
    assert i !in r;
  }

  ghost predicate ListsTopmost<S>(w: nat, sigs: seq<Option<S>>, r: seq<nat>)
    requires |sigs| == 2 * w - 1
  {
    && (forall x: nat :: x in r <==> Topmost(w, sigs, x))
    && (forall p, q :: 0 <= p < q < |r| ==> r[p] != r[q])
  }

  lemma RowParent(w: nat, rowStart: nat, rowWidth: nat, m: nat)
    requires rowWidth % 2 == 0 && rowStart >= rowWidth && rowStart + rowWidth == 2 * w && m < rowWidth
    ensures Node(w, rowStart - rowWidth + m) && rowStart - rowWidth + m != Root(w)
    ensures Parent(w, rowStart - rowWidth + m) == rowStart + m / 2
  {
    var s, v := rowStart / 2, rowWidth / 2;
    assert rowStart == 2 * s && rowWidth == 2 * v;
  }

  lemma PaddingUnsigned<K, S>(sch: Scheme<K, S>, w: nat, leaf: seq<K>, keys: seq<Option<K>>, sigs: seq<Option<S>>)
    requires KeysBuilt(sch, w, leaf, keys) && Sound(sch, keys, sigs)
    ensures forall x: nat :: |leaf| <= x < w ==> !Topmost(w, sigs, x)
  {
  }

  /** A node's skip entry and its own signature say whether it is covered, and whether it is topmost. */
  lemma EntryTells<S>(w: nat, sigs: seq<Option<S>>, i: nat, skip: bool)
    requires |sigs| == 2 * w - 1 && Node(w, i) && i != Root(w) && skip == SignedAbove(w, sigs, Parent(w, i))
    ensures SignedAbove(w, sigs, i) <==> skip || sigs[i].Some?
    ensures Topmost(w, sigs, i) <==> !skip && sigs[i].Some?
  {
  }

  /** Each of the first entries of `was` stands twice in `now`. */
  ghost predicate IsDoubled(was: seq<bool>, now: seq<bool>, width: nat) {
    2 * width <= |was| == |now| && forall j :: 0 <= j < width ==> now[2 * j] == was[j] && now[2 * j + 1] == was[j]
  }

  /** Spreads each entry of the skip table over two, in place. */
  method DoubleSkips(skip: array<bool>, width: nat)
    requires 2 * width <= skip.Length
    modifies skip
    ensures IsDoubled(old(skip[..]), skip[..], width)
  {
    ghost var was := skip[..];
    var i := width - 1;
    while i >= 0
      invariant -1 <= i < width
      invariant forall m :: 0 <= m <= i ==> skip[m] == was[m]
      invariant forall j :: i < j < width ==> skip[2 * j] == was[j] && skip[2 * j + 1] == was[j]
    {
      skip[2 * i + 1] := skip[i];
      skip[2 * i] := skip[i];
      assert skip[2 * i] == was[i] && skip[2 * i + 1] == was[i];
      i := i - 1;
    }
  }

  /** Aggregates the pairs of one layer into the layer above it. */
  method AggregateLayer<K, S>(sch: Scheme<K, S>, w: nat, ks: array<Option<K>>, readOffset: nat, layerWidth: nat, nextLayerWidth: nat)
    requires ks.Length == 2 * w - 1 && layerWidth == 2 * nextLayerWidth && readOffset + 2 * layerWidth == 2 * w
    requires AggregatedBelow(sch, w, ks, readOffset + layerWidth)
    modifies ks
    ensures forall i :: 0 <= i < w ==> ks[i] == old(ks[i])
    ensures AggregatedBelow(sch, w, ks, readOffset + layerWidth + nextLayerWidth)
  {
    for j := 0 to nextLayerWidth
      invariant forall i :: 0 <= i < w ==> ks[i] == old(ks[i])
      invariant AggregatedBelow(sch, w, ks, readOffset + layerWidth + j)
    {
      var srcIdx := readOffset + j * 2;
      JoinsTwo(w, readOffset, layerWidth, j);
      ks[readOffset + layerWidth + j] := Aggregate(sch, ks[srcIdx], ks[srcIdx + 1]);
    }
  }

  /** Aggregates the keys pairwise, one layer after the other, up to the root. */
  method AggregateLayers<K, S>(sch: Scheme<K, S>, w: nat, leaf: seq<K>, ks: array<Option<K>>)
    requires IsPow2(w) && 0 < |leaf| <= w && ks.Length == 2 * w - 1
    requires forall j :: 0 <= j < w ==> ks[j] == if j < |leaf| then Some(leaf[j]) else None
    modifies ks
    ensures KeysBuilt(sch, w, leaf, ks[..])
  {
    var layerWidth, readOffset := w, 0;
    while readOffset < ks.Length
      invariant layerWidth > 0 ==> IsPow2(layerWidth) && readOffset + 2 * layerWidth == 2 * w
      invariant layerWidth == 0 ==> readOffset == ks.Length
      invariant forall j :: 0 <= j < w ==> ks[j] == old(ks[j])
      invariant AggregatedBelow(sch, w, ks, readOffset + layerWidth)
      decreases ks.Length - readOffset
    {
      var nextLayerWidth := layerWidth / 2;
      if layerWidth > 1 {
        HalfOfPow2(layerWidth);
        AggregateLayer(sch, w, ks, readOffset, layerWidth, nextLayerWidth);
      }
      readOffset := readOffset + layerWidth;
      layerWidth := nextLayerWidth;
    }
  }

  /** The inner nodes before `end` hold the aggregates of their children. */
  ghost predicate AggregatedBelow<K, S>(sch: Scheme<K, S>, w: nat, ks: array<Option<K>>, end: int)
    requires ks.Length == 2 * w - 1
    reads ks
  {
    forall p :: Inner(w, p) && p < end ==> ks[p] == Aggregate(sch, ks[LeftOf(w, p)], ks[RightOf(w, p)])
  }

  /** The layer of an index: where it starts, its width, and the leaves under each of its nodes. */
  method LayerOf(w: nat, idx: nat) returns (layerStart: nat, layerWidth: nat, nLeaves: nat)
    requires IsPow2(w) && Node(w, idx)
    ensures Layer(w, layerStart, layerWidth, nLeaves) && layerStart <= idx < layerStart + layerWidth
  {
    layerStart, layerWidth, nLeaves := 0, w, 1;
    LeafLayer(w);
    while idx >= layerStart + layerWidth
      invariant Layer(w, layerStart, layerWidth, nLeaves) && layerStart <= idx
      decreases layerWidth
    {
      NextLayer(w, layerStart, layerWidth, nLeaves);
      layerStart, layerWidth, nLeaves := layerStart + layerWidth, layerWidth / 2, 2 * nLeaves;
    }
  }

  /** The skip entry says whether something above its node is signed. */
  ghost predicate ParentAt<S>(w: nat, sigs: seq<Option<S>>, skip: seq<bool>, rowStart: nat, k: nat)
    requires |sigs| == 2 * w - 1 && k < |skip|
  {
    && Node(w, rowStart + k) && rowStart + k != Root(w)
    && skip[k] == SignedAbove(w, sigs, Parent(w, rowStart + k))
  }

  /** The skip entry says whether its node or something above it is signed. */
  ghost predicate OwnAt<S>(w: nat, sigs: seq<Option<S>>, skip: seq<bool>, rowStart: nat, k: nat)
    requires |sigs| == 2 * w - 1 && k < |skip|
  {
    Node(w, rowStart + k) && skip[k] == SignedAbove(w, sigs, rowStart + k)
  }

  /** From offset `k0` on, the entries of a row are still those inherited from the row above. */
  ghost predicate SkipsParents<S>(w: nat, sigs: seq<Option<S>>, skip: seq<bool>, rowStart: int, rowWidth: int, k0: int)
    requires |sigs| == 2 * w - 1
  {
    && 0 <= rowStart && 0 <= k0 && rowWidth <= |skip|
    && forall k: nat :: k0 <= k < rowWidth ==> ParentAt(w, sigs, skip, rowStart, k)
  }

  /** The first `n` entries of a row are done. */
  ghost predicate RowDone<S>(w: nat, sigs: seq<Option<S>>, skip: seq<bool>, rowStart: nat, n: int)
    requires |sigs| == 2 * w - 1
  {
    n <= |skip| && forall k: nat :: k < n ==> OwnAt(w, sigs, skip, rowStart, k)
  }

  lemma RowDoneNext<S>(w: nat, sigs: seq<Option<S>>, skip: seq<bool>, rowStart: nat, rowWidth: nat, n: nat)
    requires |sigs| == 2 * w - 1 && n < rowWidth && RowDone(w, sigs, skip, rowStart, n)
    requires SkipsParents(w, sigs, skip, rowStart, rowWidth, n)
    ensures Node(w, rowStart + n)
    ensures
      var after := skip[n := SignedAbove(w, sigs, rowStart + n)];
      RowDone(w, sigs, after, rowStart, n + 1) && SkipsParents(w, sigs, after, rowStart, rowWidth, n + 1)
  {
    assert ParentAt(w, sigs, skip, rowStart, n);
    var after := skip[n := SignedAbove(w, sigs, rowStart + n)];
    forall k: nat | k < n + 1 ensures OwnAt(w, sigs, after, rowStart, k) {
      if k < n { assert OwnAt(w, sigs, skip, rowStart, k); }
    }
    forall k: nat | n + 1 <= k < rowWidth ensures ParentAt(w, sigs, after, rowStart, k) {
      assert ParentAt(w, sigs, skip, rowStart, k);
    }
  }

  /** How far the scan of a row has come: entries before `i` are done, those after it inherited, and the
    topmost nodes so far are listed. */
  ghost predicate ScanAt<S>(w: nat, sigs: seq<Option<S>>, skip: seq<bool>, r: seq<nat>, rowStart: nat, i: nat, done: nat)
    requires |sigs| == 2 * w - 1
  {
    && rowStart <= i <= done
    && RowDone(w, sigs, skip, rowStart, i - rowStart)
    && SkipsParents(w, sigs, skip, rowStart, done - rowStart, i - rowStart)
    && Lists(w, sigs, r, rowStart, i, done)
  }

  lemma ScanNext<S>(w: nat, sigs: seq<Option<S>>, skip: seq<bool>, r: seq<nat>, rowStart: nat, i: nat, done: nat)
    requires |sigs| == 2 * w - 1 && ScanAt(w, sigs, skip, r, rowStart, i, done) && i < done
    ensures Node(w, i) && i - rowStart < |skip|
    ensures
      if !skip[i - rowStart] && sigs[i].Some? then ScanAt(w, sigs, skip[i - rowStart := true], r + [i], rowStart, i + 1, done)
      else ScanAt(w, sigs, skip, r, rowStart, i + 1, done)
  {
    assert ParentAt(w, sigs, skip, rowStart, i - rowStart);
    EntryTells(w, sigs, i, skip[i - rowStart]);
    ListsNext(w, sigs, r, rowStart, i, done);
    RowDoneNext(w, sigs, skip, rowStart, done - rowStart, i - rowStart);
    assert skip[i - rowStart := skip[i - rowStart]] == skip;
  }

  /** Turns the skip entries of a finished row into those of the row below it. */
  method SpreadRow<S>(w: nat, ghost sigs: seq<Option<S>>, skip: array<bool>, rowStart: nat, rowWidth: nat)
    requires |sigs| == 2 * w - 1 && rowStart >= 2 * rowWidth && rowStart + 2 * rowWidth == 2 * w
    requires 2 * rowWidth <= skip.Length
    requires RowDone(w, sigs, skip[..], rowStart, rowWidth)
    modifies skip
    ensures SkipsParents(w, sigs, skip[..], rowStart - 2 * rowWidth, 2 * rowWidth, 0)
  {
    ghost var was := skip[..];
    DoubleSkips(skip, rowWidth);
    SpreadDone(w, sigs, was, skip[..], rowStart, rowWidth, rowStart - 2 * rowWidth);
  }

  lemma SpreadDone<S>(w: nat, sigs: seq<Option<S>>, was: seq<bool>, now: seq<bool>, rowStart: nat, rowWidth: nat, below: nat)
    requires |sigs| == 2 * w - 1 && below == rowStart - 2 * rowWidth && rowStart + 2 * rowWidth == 2 * w
    requires RowDone(w, sigs, was, rowStart, rowWidth) && IsDoubled(was, now, rowWidth)
    ensures SkipsParents(w, sigs, now, below, 2 * rowWidth, 0)
  {
    forall m: nat | m < 2 * rowWidth ensures ParentAt(w, sigs, now, below, m) {
      var j := m / 2;
      RowParent(w, rowStart, 2 * rowWidth, m);
      assert OwnAt(w, sigs, was, rowStart, j);
      SpreadEntry(was, now, rowWidth, m, j);
    }
  }

  lemma SpreadEntry(was: seq<bool>, now: seq<bool>, width: nat, m: nat, j: nat)
    requires IsDoubled(was, now, width) && j < width && (m == 2 * j || m == 2 * j + 1)
    ensures now[m] == was[j]
  {
  }

  class Tree<K, S> {
    const sch: Scheme<K, S>
    const keys: array<Option<K>>
    const sigs: array<Option<S>>
    const nKeys: nat
    ghost const leaf: seq<K>
    var sigBits: set<nat>

    /** Number of leaves, padding included. */
    function Width(): nat
      requires nKeys > 0
    {
      LeavesWidth(nKeys)
    }

    /** What holds of every tree, whatever was added to it. */
    ghost predicate Valid()
      reads this, keys, sigs
    {
      && keys as object != sigs
      && 0 < nKeys <= MAX_KEYS && nKeys == |leaf|
      && KeysBuilt(sch, Width(), leaf, keys[..])
      && UpClosed(Width(), keys[..], sigs[..])
      && sigBits == Covered(Width(), nKeys, sigs[..])
    }

    /** Holds as long as every added signature was valid for the key at its index. */
    ghost predicate AllValid()
      reads this, keys, sigs
    {
      Sound(sch, keys[..], sigs[..])
    }

    /** Builds the tree of keys, layer by layer. More keys than MAX_KEYS, or none, is a caller's bug. */
    constructor (sch: Scheme<K, S>, leafKeys: seq<K>)
      requires 0 < |leafKeys| <= MAX_KEYS
      ensures Valid() && AllValid() && fresh(keys) && fresh(sigs)
      ensures leaf == leafKeys && this.sch == sch
      ensures forall i :: 0 <= i < sigs.Length ==> sigs[i].None?
    {
      var leavesWidth := LeavesWidth(|leafKeys|);
      var nNodes := 2 * leavesWidth - 1;
      var ks := new Option<K>[nNodes](_ => None);
      for i := 0 to |leafKeys|
        invariant forall j :: 0 <= j < nNodes ==> ks[j] == if j < i then Some(leafKeys[j]) else None
      {
        ks[i] := Some(leafKeys[i]);
      }
      AggregateLayers(sch, leavesWidth, leafKeys, ks);
      this.sch := sch;
      keys := ks;
      sigs := new Option<S>[nNodes](_ => None);
      nKeys := |leafKeys|;
      leaf := leafKeys;
      sigBits := {};
      new;
      EmptyTree(leavesWidth, |leafKeys|, keys[..], sigs[..]);
    }

    /** A tree over the same keys with no signatures. */
    constructor Derive(t: Tree<K, S>)
      requires t.Valid()
      ensures Valid() && AllValid() && fresh(sigs) && keys == t.keys
      ensures leaf == t.leaf && sch == t.sch
      ensures forall i :: 0 <= i < sigs.Length ==> sigs[i].None?
    {
      sch := t.sch;
      keys := t.keys;
      sigs := new Option<S>[t.keys.Length](_ => None);
      nKeys := t.nKeys;
      leaf := t.leaf;
      sigBits := {};
      new;
      EmptyTree(Width(), nKeys, keys[..], sigs[..]);
    }

    /** A tree over the same keys with a copy of the signatures. */
    constructor Clone(t: Tree<K, S>)
      requires t.Valid()
      ensures Valid() && fresh(sigs) && keys == t.keys
      ensures leaf == t.leaf && sch == t.sch
      ensures sigs[..] == t.sigs[..] && sigBits == t.sigBits
    {
      sch := t.sch;
      keys := t.keys;
      var n := t.sigs.Length;
      var copy := new Option<S>[n](i requires 0 <= i < n reads t.sigs => t.sigs[i]);
      sigs := copy;
      nKeys := t.nKeys;
      leaf := t.leaf;
      sigBits := t.sigBits;
      new;
      assert sigs[..] == t.sigs[..];
    }

    /** The key and signature at an index, and whether the index is in bounds. */
    method Get(idx: int) returns (key: Option<K>, sig: Option<S>, ok: bool)
      requires Valid()
      ensures ok <==> Node(Width(), idx)
      ensures ok ==> key == keys[idx] && sig == sigs[idx]
      ensures !ok ==> key == None && sig == None
    {
      if idx < 0 || idx >= keys.Length {
        return None, None, false;
      }
      return keys[idx], sigs[idx], true;
    }

    /** Marks a run of leaves as signed for. */
    method SetBits(start: nat, end: nat)
      modifies this`sigBits
      ensures sigBits == old(sigBits) + Leaves(start, end)
    {
      var i := start;
      while i < end
        invariant start <= i && (i <= end || end < start == i)
        invariant sigBits == old(sigBits) + Leaves(start, i)
      {
        sigBits := sigBits + {i};
        i := i + 1;
      }
    }

    /** The climb of AddSignature: stores the signature, marks its leaves, and moves up while the
      parent becomes complete. */
    method Climb(idx0: nat, sig0: S)
      requires keys as object != sigs && nKeys > 0 && Node(Width(), idx0)
      requires keys.Length == sigs.Length == 2 * Width() - 1
      modifies this`sigBits, sigs
      ensures sigs[..] == AddSig(sch, Width(), keys[..], old(sigs[..]), idx0, sig0)
      ensures
        || sigBits == old(sigBits) + Beneath(Width(), nKeys, idx0)
        || (sigs[sigs.Length - 1].Some? && sigBits == Leaves(0, nKeys))
    {
      var w := LeavesWidth(nKeys);
      ghost var k, goal := keys[..], AddSig(sch, w, keys[..], sigs[..], idx0, sig0);
      var idx, sig, addedSigBits := idx0, sig0, false;
      while true
        invariant keys[..] == k && Node(w, idx)
        invariant AddSig(sch, w, k, sigs[..], idx, sig) == goal
        invariant !addedSigBits ==> idx == idx0 && sigBits == old(sigBits)
        invariant addedSigBits ==> sigBits == old(sigBits) + Beneath(w, nKeys, idx0)
        decreases 2 * w - idx
      {
        ghost var prev := sigs[..];
        sigs[idx] := Some(sig);
        assert sigs[..] == prev[idx := Some(sig)];
        if idx == sigs.Length - 1 {
          sigBits := Leaves(0, nKeys);
          return;
        }
        var parentIdx := MarkAndFindParent(idx, !addedSigBits);
        addedSigBits := true;
        if sigs[parentIdx].Some? {
          return;
        }
        var neighbor := if idx % 2 == 0 then idx + 1 else idx - 1;
        assert keys[neighbor] == k[neighbor];
        if keys[neighbor].Some? {
          var neighborSig := sigs[neighbor];
          if neighborSig.None? {
            return;
          }
          sig := sch.addSigs(sig, neighborSig.value);
        }
        idx := parentIdx;
      }
    }

    /** Marks the real leaves under the node at `offset` in a layer. */
    method MarkLeaves(layerStart: nat, layerWidth: nat, nLeaves: nat, offset: nat)
      requires nKeys > 0 && Layer(Width(), layerStart, layerWidth, nLeaves) && offset < layerWidth
      modifies this`sigBits
      ensures Node(Width(), layerStart + offset)
      ensures sigBits == old(sigBits) + Beneath(Width(), nKeys, layerStart + offset)
    {
      var startLeaf := offset * nLeaves;
      LayerLeaves(Width(), nKeys, layerStart, layerWidth, nLeaves, offset);
      SetBits(startLeaf, Min(startLeaf + nLeaves, nKeys));
    }

    /** Locates the layer of a non-root index, marks its leaves if asked, and gives its parent. */
    method MarkAndFindParent(idx: nat, mark: bool) returns (parentIdx: nat)
      requires nKeys > 0 && Node(Width(), idx) && idx != Root(Width())
      modifies this`sigBits
      ensures parentIdx == Parent(Width(), idx)
      ensures sigBits == if mark then old(sigBits) + Beneath(Width(), nKeys, idx) else old(sigBits)
    {
      var layerStart, layerWidth, nLeaves := LayerOf(LeavesWidth(nKeys), idx);
      var offset := idx - layerStart;
      if mark {
        MarkLeaves(layerStart, layerWidth, nLeaves, offset);
      }
      ParentByLayer(Width(), layerStart, layerWidth, nLeaves, offset);
      parentIdx := layerStart + layerWidth + offset / 2;
    }

    /** Adds a signature for the key at an index. What it completes is aggregated upwards, and the bits
      grow by exactly the real leaves beneath the index. */
    method AddSignature(idx: nat, sig: S)
      requires Valid() && Node(Width(), idx)
      modifies this`sigBits, sigs
      ensures Valid()
      ensures sigs[..] == AddSig(sch, Width(), keys[..], old(sigs[..]), idx, sig)
      ensures sigBits == old(sigBits) + Beneath(Width(), nKeys, idx)
    {
      ghost var w, before, k := Width(), sigs[..], keys[..];
      AddSigCovered(sch, w, leaf, k, before, idx, sig);
      assert UpClosedBut(w, k, before, idx);
      AddSigUpClosed(sch, w, k, before, idx, sig);
      Climb(idx, sig);
      if sigs[sigs.Length - 1].Some? {
        assert sigs[..][Root(w)].Some?;
        RootCovers(w, nKeys, sigs[..]);
      }
    }

    /** Appends the indices of the topmost signed nodes, from the root's side down. */
    method SparseIndices(dst: seq<nat>) returns (r: seq<nat>)
      requires Valid() && AllValid()
      ensures dst <= r
      ensures ListsTopmost(Width(), sigs[..], r[|dst|..])
    {
      ghost var w, sg := Width(), sigs[..];
      r := dst;
      if sigs[sigs.Length - 1].Some? {
        r := r + [sigs.Length - 1];
        RootIsTopmost(w, sg);
        assert r[|dst|..] == [Root(w) as nat];
        return;
      }
      PaddingUnsigned(sch, w, leaf, keys[..], sg);
      var found := SparseBelowRoot(LeavesWidth(nKeys));
      r := dst + found;
      assert r[|dst|..] == found;
    }

    /** The walk below an unsigned root: inner layers downwards with a skip table, then the real leaves. */
    method SparseBelowRoot(w: nat) returns (r: seq<nat>)
      requires nKeys > 0 && w == Width() && sigs.Length == 2 * w - 1 && sigs[Root(w)].None?
      requires forall x: nat :: nKeys <= x < w ==> !Topmost(w, sigs[..], x)
      ensures ListsTopmost(w, sigs[..], r)
    {
      ghost var sg := sigs[..];
      r := [];
      var rowStart, rowWidth := sigs.Length - 3, 2;
      var skip := new bool[w](_ => false);
      while rowStart > 0
        invariant fresh(skip) && skip.Length == w && sigs[..] == sg
        invariant w == 1 ==> rowStart == -2
        invariant w > 1 ==> rowStart >= 0 && rowStart + 2 * rowWidth == 2 * w && IsPow2(rowWidth)
        invariant w > 1 ==> SkipsParents(w, sg, skip[..], rowStart, rowWidth, 0)
        invariant Lists(w, sg, r, rowStart + rowWidth, rowStart + rowWidth, rowStart + rowWidth)
        decreases rowStart
      {
        Pow2Gap(rowWidth, w);
        r := ScanRow(w, skip, rowStart, rowStart + rowWidth, rowStart + rowWidth, r);
        SpreadRow(w, sg, skip, rowStart, rowWidth);
        rowWidth := 2 * rowWidth;
        rowStart := rowStart - rowWidth;
      }
      if w == 1 {
        assert forall x: nat :: !Topmost(w, sg, x);
      } else {
        r := ScanRow(w, skip, 0, nKeys, w, r);
      }
    }

    /** One row of the walk: lists the signed nodes that nothing above covers, and marks them to skip. */
    method ScanRow(w: nat, skip: array<bool>, rowStart: nat, rowEnd: nat, done: nat, r0: seq<nat>) returns (r: seq<nat>)
      requires sigs.Length == 2 * w - 1 && rowStart <= rowEnd <= done < 2 * w - 1
      requires done - rowStart <= skip.Length
      requires SkipsParents(w, sigs[..], skip[..], rowStart, done - rowStart, 0)
      requires Lists(w, sigs[..], r0, done, done, done)
      modifies skip
      ensures sigs[..] == old(sigs[..])
      ensures RowDone(w, sigs[..], skip[..], rowStart, rowEnd - rowStart)
      ensures Lists(w, sigs[..], r, rowStart, rowEnd, done)
    {
      ghost var sg := sigs[..];
      r := r0;
      for i := rowStart to rowEnd
        invariant sigs[..] == sg
        invariant ScanAt(w, sg, skip[..], r, rowStart, i, done)
      {
        assert sg[i] == sigs[i];
        ScanNext(w, sg, skip[..], r, rowStart, i, done);
        if !skip[i - rowStart] && sigs[i].Some? {
          ghost var before := skip[..];
          r := r + [i];
          skip[i - rowStart] := true;
          assert skip[..] == before[i - rowStart := true];
        }
      }
    }
  }
}
