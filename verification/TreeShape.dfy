/** The array layout of the signature tree.

  A tree over `w` leaves, `w` a power of two, is stored layer by layer: the leaves at 0 .. w-1, then
  each layer above it, and the root last, at 2w-2. In that layout the node above `i` is `w + i / 2`,
  and the nodes below an internal `p` are `2 * (p - w)` and its right neighbour. */
module TreeShape {

  predicate IsPow2(w: nat) {
    w == 1 || (w > 1 && w % 2 == 0 && IsPow2(w / 2))
  }

  function Pow2(k: nat): (p: nat)
    ensures IsPow2(p)
  {
    if k == 0 then 1 else 2 * Pow2(k - 1)
  }

  /** Number of bits needed to write `n`, as math/bits defines it. */
  function BitLen(n: nat): nat {
    if n == 0 then 0 else 1 + BitLen(n / 2)
  }

  lemma {:induction false} BitLenBounds(n: nat)
    requires n > 0
    ensures n < Pow2(BitLen(n)) <= 2 * n
  {
    if n > 1 {
      BitLenBounds(n / 2);
    } else {
      assert BitLen(1) == 1 && Pow2(1) == 2 by { assert BitLen(0) == 0; assert Pow2(0) == 1; }
    }
  }

  /** The leaf layer of a tree for `n` keys: the least power of two that holds them all.
    The bit test `n & (n-1) == 0` of the engine, on a positive `n`, is `IsPow2(n)`. */
  function LeavesWidth(n: nat): (w: nat)
    requires n > 0
    ensures IsPow2(w) && n <= w < 2 * n
  {
    if IsPow2(n) then n
    else
      BitLenBounds(n);
      Pow2Doubles(n, Pow2(BitLen(n)));
      Pow2(BitLen(n))
  }

  lemma Pow2Doubles(n: nat, w: nat)
    requires !IsPow2(n) && IsPow2(w) && 0 < n
    ensures w != 2 * n
  {
  }

  /** Powers of two are spaced by doubling, so the width is monotone in the number of keys. */
  lemma {:induction false} Pow2Gap(a: nat, b: nat)
    requires IsPow2(a) && IsPow2(b) && a < b
    ensures 2 * a <= b
  {
    if a > 1 { Pow2Gap(a / 2, b / 2); }
  }

  /** An odd divisor of a power of two is one. */
  lemma {:induction false} OddDivisor(d: nat, x: nat, w: nat)
    requires IsPow2(w) && d % 2 == 1 && d * x == w
    ensures d == 1
    decreases w
  {
    if w == 1 {
      if d > 1 { MulAtLeast(d, x); }
    } else {
      OddTimes(d, x);
      assert d * (x / 2) == w / 2 by { MulHalf(d, x); }
      OddDivisor(d, x / 2, w / 2);
    }
  }

  lemma MulAtLeast(d: nat, x: nat)
    requires x > 0
    ensures d * x >= d
  {
  }

  lemma MulHalf(d: nat, x: nat)
    requires x % 2 == 0
    ensures d * (x / 2) == d * x / 2
  {
    var h := x / 2;
    assert d * x == 2 * (d * h) by { assert x == 2 * h; assert d * (2 * h) == 2 * (d * h); }
  }

  lemma OddTimes(d: nat, x: nat)
    requires d % 2 == 1 && d * x % 2 == 0
    ensures x % 2 == 0
  {
    var e := d / 2;
    assert d * x == 2 * (e * x) + x by { assert d == 2 * e + 1; }
  }

  // ----- Ancestors -----

  predicate Node(w: nat, i: int) {
    0 <= i < 2 * w - 1
  }

  predicate Inner(w: nat, i: int) {
    w <= i < 2 * w - 1
  }

  function Root(w: nat): int {
    2 * w - 2
  }

  function Parent(w: nat, i: nat): (p: nat)
    requires Node(w, i) && i != Root(w)
    ensures Inner(w, p) && i < p
  {
    w + i / 2
  }

  function LeftOf(w: nat, p: nat): (i: nat)
    requires Inner(w, p)
    ensures Node(w, i) && i < p && i != Root(w) && Parent(w, i) == p
  {
    2 * (p - w)
  }

  function RightOf(w: nat, p: nat): (i: nat)
    requires Inner(w, p)
    ensures Node(w, i) && i < p && i != Root(w) && Parent(w, i) == p
  {
    2 * (p - w) + 1
  }

  /** The other child of `i`'s parent. */
  function Sibling(i: nat): nat {
    if i % 2 == 0 then i + 1 else i - 1
  }

  /** `a` is `i` or above it. */
  predicate Above(w: nat, a: nat, i: nat)
    requires Node(w, i)
    decreases 2 * w - i
  {
    a == i || (i != Root(w) && Above(w, a, Parent(w, i)))
  }

  lemma {:induction false} AboveGrows(w: nat, a: nat, i: nat)
    requires Node(w, i) && Above(w, a, i)
    ensures Node(w, a) && i <= a
    decreases 2 * w - i
  {
    if a != i { AboveGrows(w, a, Parent(w, i)); }
  }

  lemma {:induction false} AboveTransitive(w: nat, a: nat, b: nat, i: nat)
    requires Node(w, i) && Node(w, b) && Above(w, b, i) && Above(w, a, b)
    ensures Above(w, a, i)
    decreases 2 * w - i
  {
    if b != i { AboveTransitive(w, a, b, Parent(w, i)); }
  }

  /** The nodes above one node are ordered by Above. */
  lemma {:induction false} AboveLinear(w: nat, a: nat, b: nat, i: nat)
    requires Node(w, i) && Above(w, a, i) && Above(w, b, i)
    ensures Node(w, a) && Node(w, b)
    ensures Above(w, a, b) || Above(w, b, a)
    decreases 2 * w - i
  {
    AboveGrows(w, a, i);
    AboveGrows(w, b, i);
    if a != i && b != i { AboveLinear(w, a, b, Parent(w, i)); }
  }

  /** What is strictly below an inner node is below one of its children. */
  lemma {:induction false} AboveThroughChild(w: nat, a: nat, i: nat)
    requires Node(w, i) && Inner(w, a) && Above(w, a, i) && a != i
    ensures Above(w, LeftOf(w, a), i) || Above(w, RightOf(w, a), i)
    decreases 2 * w - i
  {
    if Parent(w, i) != a { AboveThroughChild(w, a, Parent(w, i)); }
  }

  // ----- Leaf ranges -----

  /** First leaf below `i`. */
  function Lo(w: nat, i: nat): (lo: nat)
    requires Node(w, i)
    ensures lo < w
  {
    if i < w then i else Lo(w, LeftOf(w, i))
  }

  /** One past the last leaf below `i`. */
  function Hi(w: nat, i: nat): (hi: nat)
    requires Node(w, i)
    ensures 0 < hi <= w
  {
    if i < w then i + 1 else Hi(w, RightOf(w, i))
  }

  /** A layer of `width` nodes from `start`: each covers `n` leaves, and their ranges follow on. */
  ghost predicate Layer(w: nat, start: nat, width: nat, n: nat) {
    IsPow2(width) && LayerBody(w, start, width, n)
  }

  ghost predicate LayerBody(w: nat, start: nat, width: nat, n: nat) {
    && width > 0
    && start + 2 * width == 2 * w
    && n > 0
    && (start > 0 ==> n % 2 == 0)
    && Hi(w, start + width - 1) == w
    && forall i :: start <= i < start + width ==> InLayer(w, start, n, i)
  }

  ghost predicate InLayer(w: nat, start: nat, n: nat, i: nat) {
    && Node(w, i)
    && Hi(w, i) == Lo(w, i) + n
    && Lo(w, i) == if i > start then Hi(w, i - 1) else 0
  }

  lemma LeafLayer(w: nat)
    requires IsPow2(w)
    ensures Layer(w, 0, w, 1)
  {
    forall i | 0 <= i < w ensures InLayer(w, 0, 1, i) {
    }
  }

  /** The node at offset `k` of the next layer joins the nodes at offsets `2k` and `2k + 1` of this one. */
  lemma JoinsTwo(w: nat, start: nat, width: nat, k: nat)
    requires start + 2 * width == 2 * w && 2 * k + 1 < width
    ensures Inner(w, start + width + k)
    ensures LeftOf(w, start + width + k) == start + 2 * k && RightOf(w, start + width + k) == start + 2 * k + 1
  {
  }

  lemma InNextLayer(w: nat, start: nat, width: nat, n: nat, k: nat)
    requires LayerBody(w, start, width, n) && 2 * k + 1 < width
    ensures InLayer(w, start + width, 2 * n, start + width + k)
  {
    var i, l := start + width + k, start + 2 * k;
    JoinsTwo(w, start, width, k);
    assert InLayer(w, start, n, l) && InLayer(w, start, n, l + 1);
    assert Lo(w, i) == Lo(w, l) && Hi(w, i) == Hi(w, l + 1);
    if k > 0 {
      JoinsTwo(w, start, width, k - 1);
      assert Hi(w, i - 1) == Hi(w, l - 1) by { assert RightOf(w, i - 1) == l - 1; }
    }
  }

  lemma HalfOfPow2(width: nat)
    requires IsPow2(width) && width > 1
    ensures IsPow2(width / 2) && width == 2 * (width / 2)
  {
  }

  lemma BodyOfNextLayer(w: nat, start: nat, width: nat, n: nat, above: nat, h: nat)
    requires LayerBody(w, start, width, n) && width == 2 * h && h > 0 && above == start + width
    ensures LayerBody(w, above, h, 2 * n)
  {
    forall i | above <= i < above + h ensures InLayer(w, above, 2 * n, i) {
      InNextLayer(w, start, width, n, i - above);
    }
    JoinsTwo(w, start, width, h - 1);
  }

  lemma NextLayer(w: nat, start: nat, width: nat, n: nat)
    requires Layer(w, start, width, n) && width > 1
    ensures Layer(w, start + width, width / 2, 2 * n)
  {
    HalfOfPow2(width);
    BodyOfNextLayer(w, start, width, n, start + width, width / 2);
  }

  /** Within a layer, the node at offset `o` starts at leaf `o * n`. */
  lemma {:induction false} LayerOffset(w: nat, start: nat, width: nat, n: nat, o: nat)
    requires Layer(w, start, width, n) && o < width
    ensures Lo(w, start + o) == o * n
    ensures Hi(w, start + o) == (o + 1) * n
  {
    assert InLayer(w, start, n, start + o);
    assert (o + 1) * n == o * n + n;
    if o > 0 {
      LayerOffset(w, start, width, n, o - 1);
    }
  }

  /** The leaf range of the node at offset `o`. */
  lemma RangeAtOffset(w: nat, start: nat, width: nat, n: nat, o: nat)
    requires Layer(w, start, width, n) && o < width
    ensures Node(w, start + o) && Lo(w, start + o) == o * n && Hi(w, start + o) == Lo(w, start + o) + n
  {
    LayerOffset(w, start, width, n, o);
    assert InLayer(w, start, n, start + o);
  }

  /** Every node lies in a layer. */
  lemma FindLayer(w: nat, i: nat) returns (start: nat, width: nat, n: nat)
    requires IsPow2(w) && Node(w, i)
    ensures Layer(w, start, width, n) && start <= i < start + width
  {
    LeafLayer(w);
    start, width, n := 0, w, 1;
    while i >= start + width
      invariant Layer(w, start, width, n) && start <= i
      decreases width
    {
      NextLayer(w, start, width, n);
      start, width, n := start + width, width / 2, 2 * n;
    }
  }

  /** A left child's right neighbour lies in the same layer. */
  lemma SiblingInLayer(w: nat, start: nat, width: nat, n: nat, l: nat)
    requires Layer(w, start, width, n) && start <= l < start + width
    requires l % 2 == 0 && l != Root(w)
    ensures l + 1 < start + width
  {
    assert width > 1 && width % 2 == 0;
  }

  /** The ranges of siblings meet, and both are non-empty. */
  lemma ChildRanges(w: nat, p: nat)
    requires IsPow2(w) && Inner(w, p)
    ensures Lo(w, LeftOf(w, p)) == Lo(w, p) < Hi(w, LeftOf(w, p))
    ensures Hi(w, LeftOf(w, p)) == Lo(w, RightOf(w, p)) < Hi(w, RightOf(w, p)) == Hi(w, p)
  {
    var l := LeftOf(w, p);
    assert RightOf(w, p) == l + 1;
    var start, width, n := FindLayer(w, l);
    SiblingInLayer(w, start, width, n, l);
    SiblingRanges(w, start, width, n, l);
  }

  lemma SiblingRanges(w: nat, start: nat, width: nat, n: nat, l: nat)
    requires Layer(w, start, width, n) && start <= l && l + 1 < start + width
    ensures Node(w, l) && Node(w, l + 1)
    ensures Lo(w, l) < Hi(w, l) == Lo(w, l + 1) < Hi(w, l + 1)
  {
    assert InLayer(w, start, n, l) && InLayer(w, start, n, l + 1);
  }

  /** A node is above exactly the leaves of its range. */
  lemma {:induction false} AboveIsRange(w: nat, a: nat, j: nat)
    requires IsPow2(w) && Node(w, a) && j < w
    ensures Above(w, a, j) <==> Lo(w, a) <= j < Hi(w, a)
    decreases a
  {
    if a < w {
      if a != j && Above(w, a, j) {
        AboveGrows(w, a, Parent(w, j));
        assert false;
      }
    } else {
      ChildRanges(w, a);
      var l, r := LeftOf(w, a), RightOf(w, a);
      AboveIsRange(w, l, j);
      AboveIsRange(w, r, j);
      if Above(w, a, j) {
        AboveThroughChild(w, a, j);
      }
      if Above(w, l, j) { AboveTransitive(w, a, l, j); }
      if Above(w, r, j) { AboveTransitive(w, a, r, j); }
    }
  }

  /** Leaf ranges of nodes neither of which is above the other are disjoint. */
  lemma UnrelatedRangesDisjoint(w: nat, a: nat, b: nat)
    requires IsPow2(w) && Node(w, a) && Node(w, b)
    requires !Above(w, a, b) && !Above(w, b, a)
    ensures Hi(w, a) <= Lo(w, b) || Hi(w, b) <= Lo(w, a)
  {
    if Hi(w, a) > Lo(w, b) && Hi(w, b) > Lo(w, a) {
      var j := if Lo(w, a) < Lo(w, b) then Lo(w, b) else Lo(w, a);
      RangeNonEmpty(w, a);
      RangeNonEmpty(w, b);
      AboveIsRange(w, a, j);
      AboveIsRange(w, b, j);
      AboveLinear(w, a, b, j);
    }
  }

  lemma RangeNonEmpty(w: nat, a: nat)
    requires IsPow2(w) && Node(w, a)
    ensures Lo(w, a) < Hi(w, a)
  {
    if a >= w { ChildRanges(w, a); }
  }

  /** Folding an inner index by `w` never names a node over the same first leaf, except at `w` itself. */
  lemma FoldedIndexMoves(w: nat, i: nat)
    requires IsPow2(w) && Inner(w, i) && Lo(w, i) == i - w
    ensures i == w
  {
    var start, width, n := FindLayer(w, i);
    var o := i - start;
    LayerOffset(w, start, width, n, o);
    LayerOffset(w, start, width, n, width - 1);
    Folded(w, width, n, o);
  }

  lemma Folded(w: nat, width: nat, n: nat, o: nat)
    requires IsPow2(width) && o < width && n > 0 && n % 2 == 0
    requires width * n == w && o * n == w - 2 * width + o
    ensures o == 0 && w == 2 * width
  {
    FoldedProduct(w, width, n, o);
    EvenLessOne(n);
    OddDivisor(n - 1, width - o, width);
    FoldedByTwo(w, width, n, o);
  }

  lemma FoldedProduct(w: nat, width: nat, n: nat, o: nat)
    requires o < width && n > 0 && width * n == w && o * n == w - 2 * width + o
    ensures (n - 1) * (width - o) == width
  {
    Distribute(n, width, o);
    assert (n - 1) * (width - o) == n * (width - o) - (width - o);
  }

  lemma EvenLessOne(n: nat)
    requires n > 0 && n % 2 == 0
    ensures (n - 1) % 2 == 1
  {
  }

  lemma FoldedByTwo(w: nat, width: nat, n: nat, o: nat)
    requires n == 2 && width * n == w && o * n == w - 2 * width + o
    ensures o == 0 && w == 2 * width
  {
  }

  lemma Distribute(n: nat, a: nat, b: nat)
    requires b <= a
    ensures n * (a - b) == a * n - b * n
  {
  }
}
