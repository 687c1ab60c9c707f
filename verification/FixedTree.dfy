/** Index arithmetic of a tree in which every node has `bf` children, stored layer by layer. Indices are
  unbounded; the engine's overflow behaviour is undefined by its own documentation. */
module FixedTree {

  /** The number of entries before a layer. */
  function Before(bf: nat, layer: nat): nat {
    if layer == 0 then 0 else bf * Before(bf, layer - 1) + 1
  }

  function Width(bf: nat, layer: nat): nat {
    if layer == 0 then 1 else bf * Width(bf, layer - 1)
  }

  /** The layer of an entry, found by going up parent by parent. */
  function LayerOf(bf: nat, i: nat): nat
    requires bf >= 1
    decreases i
  {
    if i == 0 then 0
    else
      ParentSmaller(bf, i);
      LayerOf(bf, (i - 1) / bf) + 1
  }

  lemma ParentSmaller(bf: nat, i: nat)
    requires bf >= 1 && i >= 1
    ensures 0 <= (i - 1) / bf < i
  {
    var q := (i - 1) / bf;
    assert i - 1 == bf * q + (i - 1) % bf;
    Grows(bf, q);
  }

  lemma Grows(bf: nat, x: nat)
    requires bf >= 1
    ensures bf * x >= x
  {
  }

  lemma DivIs(bf: nat, q: nat, r: nat)
    requires bf >= 1 && r < bf
    ensures (bf * q + r) / bf == q
  {
    var x := bf * q + r;
    assert x == bf * (x / bf) + x % bf;
    var d := q - x / bf;
    assert bf * d == x % bf - r;
    MultipleOf(bf, d);
  }

  lemma MultipleOf(bf: int, d: int)
    requires bf >= 1
    ensures d >= 1 ==> bf * d >= bf
    ensures d <= -1 ==> bf * d <= -bf
  {
  }

  /** What the loops rely on: a layer's entries and those before it make up `bf` times the latter, plus
    the root. */
  lemma {:induction false} LayerSum(bf: nat, layer: nat)
    ensures Before(bf, layer + 1) == Before(bf, layer) + Width(bf, layer)
  {
    if layer > 0 {
      LayerSum(bf, layer - 1);
      var a, w := Before(bf, layer - 1), Width(bf, layer - 1);
      assert bf * (a + w) == bf * a + bf * w;
    }
  }

  lemma {:induction false} WidthPositive(bf: nat, layer: nat)
    requires bf >= 1
    ensures Width(bf, layer) >= 1
  {
    if layer > 0 {
      WidthPositive(bf, layer - 1);
      Grows(bf, Width(bf, layer - 1));
    }
  }

  lemma {:induction false} BeforeMonotone(bf: nat, a: nat, b: nat)
    requires bf >= 1 && a <= b
    ensures Before(bf, a) <= Before(bf, b)
    decreases b
  {
    if a < b {
      BeforeMonotone(bf, a, b - 1);
      Grows(bf, Before(bf, b - 1));
    }
  }

  /** The layer of an entry is the one whose range of indices contains it. */
  lemma {:induction false} LayerRange(bf: nat, i: nat)
    requires bf >= 1
    ensures Before(bf, LayerOf(bf, i)) <= i < Before(bf, LayerOf(bf, i) + 1)
    decreases i
  {
    if i > 0 {
      ParentSmaller(bf, i);
      var q := (i - 1) / bf;
      LayerRange(bf, q);
      var l := LayerOf(bf, q);
      RangeBelow(bf, Before(bf, l), Before(bf, l + 1), i, q);
      NextLayer(bf, l);
      NextLayer(bf, l + 1);
    }
  }

  lemma NextLayer(bf: nat, layer: nat)
    ensures Before(bf, layer + 1) == bf * Before(bf, layer) + 1
  {
  }

  lemma RangeBelow(bf: nat, lo: nat, hi: nat, i: nat, q: nat)
    requires bf >= 1 && i >= 1 && q == (i - 1) / bf && lo <= q < hi
    ensures bf * lo + 1 <= i < bf * hi + 1
  {
    assert i - 1 == bf * q + (i - 1) % bf;
    ScaleUp(bf, lo, q);
    ScaleUp(bf, q + 1, hi);
  }

  lemma ScaleUp(bf: nat, x: nat, y: nat)
    requires x <= y
    ensures bf * x <= bf * y
  {
  }

  lemma LayerUnique(bf: nat, i: nat, layer: nat)
    requires bf >= 1 && Before(bf, layer) <= i < Before(bf, layer + 1)
    ensures layer == LayerOf(bf, i)
  {
    LayerRange(bf, i);
    if layer < LayerOf(bf, i) { BeforeMonotone(bf, layer + 1, LayerOf(bf, i)); }
    if layer > LayerOf(bf, i) { BeforeMonotone(bf, LayerOf(bf, i) + 1, layer); }
  }

  /** The children of an entry are the entries whose parent it is. */
  lemma ChildrenAndParent(bf: nat, i: nat, j: nat)
    requires bf >= 1
    ensures j >= 1 && (j - 1) / bf == i <==> bf * i + 1 <= j < bf * i + 1 + bf
  {
    if j >= 1 {
      var q := (j - 1) / bf;
      assert j - 1 == bf * q + (j - 1) % bf;
      if bf * i + 1 <= j < bf * i + 1 + bf {
        DivIs(bf, i, j - 1 - bf * i);
      }
    }
  }

  /** A parent lies exactly one layer up. */
  lemma ParentOneLayerUp(bf: nat, i: nat, layer: nat)
    requires bf >= 1 && i >= 1 && Before(bf, layer) <= i < Before(bf, layer + 1)
    ensures layer >= 1 && Before(bf, layer - 1) <= (i - 1) / bf < Before(bf, layer)
  {
    LayerUnique(bf, i, layer);
    ParentSmaller(bf, i);
    LayerRange(bf, (i - 1) / bf);
  }

  // ----- The loops -----

  method Layer(bf: nat, entryIdx: nat) returns (layer: nat)
    requires bf >= 1
    ensures layer == LayerOf(bf, entryIdx)
    ensures Before(bf, layer) <= entryIdx < Before(bf, layer + 1)
  {
    if entryIdx == 0 {
      return 0;
    }
    layer := 1;
    var layerWidth := bf;
    var entriesSoFar := 1 + bf;
    assert Before(bf, 0) == 0 && Before(bf, 1) == 1 && Before(bf, 2) == bf + 1;
    assert Width(bf, 0) == 1 && Width(bf, 1) == bf;
    while entryIdx >= entriesSoFar
      invariant layer >= 1 && layerWidth == Width(bf, layer) && entriesSoFar == Before(bf, layer + 1)
      invariant Before(bf, layer) <= entryIdx
      decreases entryIdx - entriesSoFar
    {
      layer := layer + 1;
      layerWidth := layerWidth * bf;
      LayerSum(bf, layer);
      WidthPositive(bf, layer);
      entriesSoFar := entriesSoFar + layerWidth;
    }
    LayerUnique(bf, entryIdx, layer);
  }

  method FirstChild(bf: nat, entryIdx: nat) returns (child: nat)
    requires bf >= 1
    ensures child == bf * entryIdx + 1
  {
    if entryIdx == 0 {
      return 1;
    }
    var curLayerWidth := bf;
    var entriesBeforeCurLayer := 1;
    while entryIdx > entriesBeforeCurLayer + curLayerWidth
      invariant curLayerWidth >= 1 && entriesBeforeCurLayer <= entryIdx
      invariant entriesBeforeCurLayer + curLayerWidth == bf * entriesBeforeCurLayer + 1
      decreases entryIdx - entriesBeforeCurLayer
    {
      ghost var b, w := entriesBeforeCurLayer, curLayerWidth;
      assert bf * (b + w) == bf * b + bf * w;
      Grows(bf, w);
      entriesBeforeCurLayer := entriesBeforeCurLayer + curLayerWidth;
      curLayerWidth := curLayerWidth * bf;
    }
    // The test also accepts the first index after the layer; the formula is right for it all the same.
    var entryLayerOffset := entryIdx - entriesBeforeCurLayer;
    assert bf * entryIdx == bf * entriesBeforeCurLayer + entryLayerOffset * bf;
    child := entriesBeforeCurLayer + curLayerWidth + entryLayerOffset * bf;
  }

  method Parent(bf: nat, entryIdx: nat) returns (parent: int)
    requires bf >= 1
    ensures parent == if entryIdx == 0 then -1 else (entryIdx - 1) / bf
  {
    if entryIdx == 0 {
      return -1;
    }
    if entryIdx <= bf {
      DivIs(bf, 0, entryIdx - 1);
      return 0;
    }
    var curLayer := Layer(bf, entryIdx);
    assert Before(bf, 0) == 0 && Before(bf, 1) == 1 && Before(bf, 2) == bf + 1;
    assert curLayer >= 2 by {
      if curLayer <= 1 { BeforeMonotone(bf, curLayer + 1, 2); }
    }
    var parentLayer := curLayer - 1;
    var ancestorEntries, ancestorWidth := 1, 1;
    assert Width(bf, 0) == 1;
    for i := 0 to parentLayer - 1
      invariant ancestorWidth == Width(bf, i) && ancestorEntries == Before(bf, i + 1)
    {
      ancestorWidth := ancestorWidth * bf;
      LayerSum(bf, i + 1);
      ancestorEntries := ancestorEntries + ancestorWidth;
    }
    var parentLayerWidth := ancestorWidth * bf;
    LayerSum(bf, parentLayer);
    ghost var offset := entryIdx - parentLayerWidth - ancestorEntries;
    assert parentLayerWidth == Width(bf, parentLayer);
    assert ancestorEntries + parentLayerWidth == Before(bf, curLayer) == bf * ancestorEntries + 1;
    DivShift(bf, ancestorEntries, offset);
    var parentOffset := (entryIdx - parentLayerWidth - ancestorEntries) / bf;
    parent := ancestorEntries + parentOffset;
  }

  lemma DivShift(bf: nat, q: nat, x: nat)
    requires bf >= 1
    ensures (bf * q + x) / bf == q + x / bf
  {
    assert x == bf * (x / bf) + x % bf;
    assert bf * (q + x / bf) == bf * q + bf * (x / bf);
    DivIs(bf, q + x / bf, x % bf);
  }

  /** Going down to any child and up again, and one layer at a time. */
  method ChildRoundTrip(bf: nat, i: nat, k: nat) returns (parent: int, above: nat, below: nat)
    requires bf >= 1 && k < bf
    ensures parent == i && below == above + 1
  {
    var child := FirstChild(bf, i);
    parent := Parent(bf, child + k);
    ChildrenAndParent(bf, i, child + k);
    above := Layer(bf, i);
    below := Layer(bf, child + k);
  }
}
