/**
  Adding regions and removing ranges at boot: how a region is first divided into
  blocks, and why a free range can be taken out of them piece by piece.
 */
module BuddyRegions {
  import opened Buddy
  import opened Numbers

  // -------------------------------------------------- the order a frame is given

  /** The number of trailing zero bits. */
  function Ctz(p: nat): nat
    requires 0 < p
  {
    if p % 2 == 1 then 0 else 1 + Ctz(p / 2)
  }

  lemma {:induction false} DoubleAligned(p: nat, k: nat)
    ensures Aligned(2 * p, k + 1) <==> Aligned(p, k)
  {
    var m := Pow2(k);
    assert Pow2(k + 1) == 2 * m;
    var q, r := p / m, p % m;
    assert p == m * q + r;
    assert 2 * p == (2 * m) * q + 2 * r;
    DivUnique(2 * p, 2 * m, q, 2 * r);
  }

  lemma {:induction false} CtzNatural(p: nat)
    requires 0 < p
    ensures Natural(p, Ctz(p))
  {
    if p % 2 == 1 {
      assert Pow2(0) == 1 && Pow2(1) == 2;
    } else {
      CtzNatural(p / 2);
      assert p == 2 * (p / 2);
      DoubleAligned(p / 2, Ctz(p / 2));
      DoubleAligned(p / 2, Ctz(p / 2) + 1);
    }
  }

  lemma {:induction false} AlignedUpTo(p: nat, k: nat)
    requires 0 < p
    ensures Aligned(p, k) <==> k <= Ctz(p)
  {
    CtzNatural(p);
    if k <= Ctz(p) {
      AlignedLess(p, k, Ctz(p));
    } else if Aligned(p, k) {
      AlignedLess(p, Ctz(p) + 1, k);
    }
  }

  /** `k` is the largest order below 16 whose aligned block at `p` ends by `limit`. */
  ghost predicate BestOrder(p: Pfn, limit: nat, k: nat) {
    && k < BUDDY_ORDERS && Aligned(p, k) && p + Pow2(k) <= limit
    && (forall j :: k < j < BUDDY_ORDERS ==> !(Aligned(p, j) && p + Pow2(j) <= limit))
  }

  /** The order the kernel computes for frame `p` of a region ending at `limit`. */
  method OrderFor(p: Pfn, limit: nat) returns (order: nat)
    requires 0 < p < limit
    ensures BestOrder(p, limit, order)
  {
    order := if Ctz(p) < BUDDY_ORDERS - 1 then Ctz(p) else BUDDY_ORDERS - 1;
    AlignedUpTo(p, order);
    forall j | order < j < BUDDY_ORDERS ensures !Aligned(p, j) {
      AlignedUpTo(p, j);
    }
    hide Aligned;
    while p + Pow2(order) > limit
      invariant order < BUDDY_ORDERS && Aligned(p, order)
      invariant forall j :: order < j < BUDDY_ORDERS ==> !(Aligned(p, j) && p + Pow2(j) <= limit)
    {
      assert order != 0;
      order := order - 1;
      AlignedLess(p, order, order + 1);
    }
  }

  /** Inside a first block every frame is given its natural order. */
  lemma {:induction false} InnerNatural(h: Pfn, k: nat, limit: nat, p: Pfn, j: nat)
    requires 0 < h && BestOrder(h, limit, k) && BestOrder(p, limit, j) && h < p < h + Pow2(k)
    ensures Natural(p, j)
  {
    var n := Ctz(p);
    CtzNatural(p);
    hide Natural;
    NaturalAligned(p, n);
    if k <= n {
      AlignedLess(p, k, n);
      SameStart(p, k, h, k);
    }
    Nested(p, n, h, k);
    AlignedUpTo(p, j);
    assert !(n > j);
  }

  // --------------------------------------------------------------- adding a block

  ghost function AddRoot(l: Layout, h: Pfn, k: nat): Layout {
    l.(head := (map p | p in Extent(h, Pow2(k)) :: h) + l.head,
       blocks := l.blocks[h := Block(k, Free)], roots := l.roots[h := k])
  }

  /** The frames of a new block are new. */
  ghost predicate New(l: Layout, h: Pfn, k: nat) {
    Aligned(h, k) && k < BUDDY_ORDERS && forall p :: In(p, h, k) ==> p !in l.head
  }

  lemma {:induction false} NewHead(l: Layout, h: Pfn, k: nat)
    requires Tiles(l) && New(l, h, k)
    ensures h !in l.blocks && h !in l.roots
    ensures forall p :: p in AddRoot(l, h, k).head <==> p in l.head || In(p, h, k)
    ensures forall p :: p in AddRoot(l, h, k).head ==> AddRoot(l, h, k).head[p] == if In(p, h, k) then h else l.head[p]
  {
    hide Aligned, Extent;
    ExtentHas(h, Pow2(k));
    assert In(h, h, k);
    assert forall p :: p in Extent(h, Pow2(k)) <==> 0 <= p && In(p, h, k);
    assert h in l.blocks ==> In(h, h, l.blocks[h].order);
    assert h in l.roots ==> In(h, h, l.roots[h]);
  }

  lemma {:induction false} AddRootCovers(l: Layout, h: Pfn, k: nat)
    requires Tiles(l) && New(l, h, k)
    ensures Covers(AddRoot(l, h, k))
  {
    NewHead(l, h, k);
    hide Aligned, Extent;
    var l' := AddRoot(l, h, k);
    forall p | p in l'.head ensures l'.head[p] in l'.blocks && In(p, l'.head[p], l'.blocks[l'.head[p]].order) {
      assert p in l.head ==> l.head[p] in l.blocks;
    }
  }

  lemma {:induction false} AddRootExclusive(l: Layout, h: Pfn, k: nat)
    requires Tiles(l) && New(l, h, k)
    ensures Exclusive(AddRoot(l, h, k))
  {
    NewHead(l, h, k);
    hide Aligned, Extent;
    var l' := AddRoot(l, h, k);
    forall g, p | g in l'.blocks && In(p, g, l'.blocks[g].order) ensures p in l'.head && l'.head[p] == g {
      if g != h {
        assert p in l.head && l.head[p] == g;
      }
    }
  }

  lemma {:induction false} AddRootRoots(l: Layout, h: Pfn, k: nat)
    requires Tiles(l) && New(l, h, k)
    ensures Shapes(AddRoot(l, h, k)) && RootsOk(AddRoot(l, h, k))
  {
    NewHead(l, h, k);
    hide Aligned, Extent, Covers, Exclusive;
    var l' := AddRoot(l, h, k);
    forall r, p | r in l'.roots && In(p, r, l'.roots[r]) ensures p in l'.head {
    }
  }

  lemma {:induction false} AddRootTiles(l: Layout, h: Pfn, k: nat)
    requires Tiles(l) && New(l, h, k)
    ensures Tiles(AddRoot(l, h, k))
  {
    hide Covers, Exclusive, Shapes, RootsOk, AddRoot, New;
    AddRootCovers(l, h, k);
    AddRootExclusive(l, h, k);
    AddRootRoots(l, h, k);
  }

  lemma {:induction false} AddRootFrames(l: Layout, frames: map<Pfn, Frame>, h: Pfn, k: nat)
    requires Tiles(l) && FramesOk(l, frames) && New(l, h, k) && h in frames && frames[h].order == k
    requires forall p :: In(p, h, k) ==> p in frames && frames[p].maxOrder == 0
    requires forall p :: In(p, h, k) && p != h ==> Natural(p, frames[p].order)
    ensures FramesOk(AddRoot(l, h, k), frames[h := frames[h].(onFreelist := true, maxOrder := k)])
  {
    NewHead(l, h, k);
    hide Aligned, Natural, Pow2, Tiles;
    var l', frames' := AddRoot(l, h, k), frames[h := frames[h].(onFreelist := true, maxOrder := k)];
    forall p | p in l'.head
      ensures p in frames' && (l'.head[p] != p ==> Natural(p, frames'[p].order))
      ensures frames'[p].maxOrder == if p in l'.roots then l'.roots[p] else 0
    {
      if In(p, h, k) {
        RootInside(l, p);
      }
    }
  }

  lemma {:induction false} RootInside(l: Layout, p: Pfn)
    requires Tiles(l) && p !in l.head
    ensures p !in l.roots
  {
    assert p in l.roots ==> In(p, p, l.roots[p]);
  }

  lemma {:induction false} AddRootFree(l: Layout, h: Pfn, k: nat, p: Pfn)
    requires Tiles(l) && New(l, h, k)
    ensures p in FreePages(AddRoot(l, h, k)) <==> p in FreePages(l) || In(p, h, k)
    ensures p in WiredPages(AddRoot(l, h, k)) <==> p in WiredPages(l)
    ensures In(p, h, k) ==> p !in l.head && p !in FreePages(l)
  {
    NewHead(l, h, k);
    HeadsKnown(l, p);
    hide Aligned, Tiles, Extent, Pow2;
  }

  lemma {:induction false} ExtentIn(h: Pfn, k: nat)
    ensures forall p :: p in Extent(h, Pow2(k)) <==> 0 <= p && In(p, h, k)
  {
    ExtentHas(h, Pow2(k));
  }

  lemma {:induction false} AddRootKeys(l: Layout, h: Pfn, k: nat)
    requires Tiles(l) && New(l, h, k)
    ensures AddRoot(l, h, k).head.Keys == Joined(l.head.Keys, h, Pow2(k)) && l.head.Keys !! Extent(h, Pow2(k))
  {
    NewHead(l, h, k);
    ExtentIn(h, k);
    hide Aligned, Extent, Tiles, In, Pow2, AddRoot;
  }

  lemma {:induction false} AddRootSets(l: Layout, h: Pfn, k: nat)
    requires Tiles(l) && New(l, h, k)
    ensures var n, l' := Pow2(k), AddRoot(l, h, k);
            && FreePages(l') == Joined(FreePages(l), h, n) && WiredPages(l') == WiredPages(l)
            && l'.head.Keys == Joined(l.head.Keys, h, n) && FreePages(l) !! Extent(h, n) && l.head.Keys !! Extent(h, n)
  {
    hide Tiles, New, FreePages, WiredPages, Extent, In, AddRoot, Pow2;
    AddRootKeys(l, h, k);
    ExtentIn(h, k);
    var e, l' := Extent(h, Pow2(k)), AddRoot(l, h, k);
    forall p: Pfn
      ensures p in FreePages(l') <==> p in FreePages(l) || p in e
      ensures p in WiredPages(l') <==> p in WiredPages(l)
      ensures p in e ==> p !in FreePages(l)
    {
      AddRootFree(l, h, k, p);
    }
  }

  lemma {:induction false} JoinedCard(f: set<Pfn>, a: Pfn, n: nat)
    requires f !! Extent(a, n)
    ensures |Joined(f, a, n)| == |f| + n
  {
    ExtentHas(a, n);
  }

  lemma {:induction false} AddRootPages(l: Layout, h: Pfn, k: nat)
    requires Tiles(l) && New(l, h, k)
    ensures |FreePages(AddRoot(l, h, k))| == |FreePages(l)| + Pow2(k)
    ensures |AddRoot(l, h, k).head.Keys| == |l.head.Keys| + Pow2(k)
  {
    hide Tiles, New, FreePages, Pow2, AddRoot, Extent, Joined;
    AddRootSets(l, h, k);
    JoinedCard(FreePages(l), h, Pow2(k));
    JoinedCard(l.head.Keys, h, Pow2(k));
  }

  lemma {:induction false} HeadsKnown(l: Layout, p: Pfn)
    requires Tiles(l)
    ensures p in l.head ==> l.head[p] in l.blocks
  {
  }

  /** A first block joins the free list of its order. */
  lemma {:induction false} AddRootGood(l: Layout, frames: map<Pfn, Frame>, queues: seq<seq<Pfn>>, h: Pfn, k: nat)
    requires Good(l, frames, queues) && New(l, h, k) && Ready(frames, h, k)
    ensures k < |queues|
    ensures Good(AddRoot(l, h, k), frames[h := frames[h].(onFreelist := true, maxOrder := k)], Enlist(queues, k, h))
  {
    NewHead(l, h, k);
    NewOrder(l, queues, h, k);
    hide Tiles, FramesOk, QueuesOk, Natural, In, Aligned;
    AddRootTiles(l, h, k);
    AddRootFrames(l, frames, h, k);
    EnlistOk(l, AddRoot(l, h, k), queues, k, h);
  }

  lemma {:induction false} NewOrder(l: Layout, queues: seq<seq<Pfn>>, h: Pfn, k: nat)
    requires QueuesOk(l, queues) && New(l, h, k)
    ensures k < BUDDY_ORDERS == |queues|
  {
  }

  /** Changing the fields of frames outside the layout disturbs nothing. */
  lemma {:induction false} OtherFrames(l: Layout, frames: map<Pfn, Frame>, frames': map<Pfn, Frame>,
                                       queues: seq<seq<Pfn>>)
    requires Good(l, frames, queues)
    requires forall p :: p in l.head ==> p in frames' && (p in frames ==> frames'[p] == frames[p])
    ensures Good(l, frames', queues)
  {
    hide Natural, QueuesOk;
    forall h | h in l.blocks
      ensures h in frames' && frames'[h].order == l.blocks[h].order
      ensures (frames'[h].onFreelist <==> l.blocks[h].kind.Free?)
    {
      assert In(h, h, l.blocks[h].order);
    }
  }

  // ------------------------------------------------------------------ free nodes

  predicate Within(a: Pfn, j: nat, r: Pfn, k: nat) {
    r <= a && a + Pow2(j) <= r + Pow2(k)
  }

  ghost predicate InRoot(l: Layout, a: Pfn, j: nat) {
    exists r :: r in l.roots && Within(a, j, r, l.roots[r])
  }

  /** Every aligned block that fits a region fits one of its first blocks. */
  ghost predicate Region(l: Layout, base: nat, limit: nat) {
    forall a: Pfn, j: nat :: base <= a && j < BUDDY_ORDERS && Aligned(a, j) && a + Pow2(j) <= limit ==> InRoot(l, a, j)
  }

  /** The first block of a region ending at `limit` that frame `a` is in. */
  ghost predicate RootFor(l: Layout, r: Pfn, a: Pfn, limit: nat) {
    r in l.roots && In(a, r, l.roots[r]) && BestOrder(r, limit, l.roots[r])
  }

  ghost predicate HasRoot(l: Layout, a: Pfn, limit: nat) {
    exists r :: RootFor(l, r, a, limit)
  }

  lemma {:induction false} RootHolds(l: Layout, r: Pfn, a: Pfn, j: nat, limit: nat)
    requires RootFor(l, r, a, limit) && Aligned(a, j) && a + Pow2(j) <= limit && j < BUDDY_ORDERS
    ensures Within(a, j, r, l.roots[r])
  {
    var k := l.roots[r];
    if j <= k {
      Nested(a, j, r, k);
    } else {
      SameStart(a, k, r, j);
    }
  }

  lemma {:induction false} RegionOf(l: Layout, base: nat, limit: nat)
    requires forall a :: base <= a < limit ==> HasRoot(l, a, limit)
    ensures Region(l, base, limit)
  {
    hide Aligned, RootFor;
    forall a: Pfn, j: nat | base <= a && j < BUDDY_ORDERS && Aligned(a, j) && a + Pow2(j) <= limit
      ensures InRoot(l, a, j)
    {
      assert HasRoot(l, a, limit);
      var r :| RootFor(l, r, a, limit);
      RootHolds(l, r, a, j, limit);
      RootKnown(l, r, a, limit);
    }
  }

  lemma {:induction false} RootKnown(l: Layout, r: Pfn, a: Pfn, limit: nat)
    requires RootFor(l, r, a, limit)
    ensures r in l.roots
  {
  }

  lemma {:induction false} RegionStays(l: Layout, l': Layout, base: nat, limit: nat)
    requires Region(l, base, limit) && (forall r :: r in l.roots ==> r in l'.roots && l'.roots[r] == l.roots[r])
    ensures Region(l', base, limit)
  {
    hide Aligned;
    forall a: Pfn, j: nat | base <= a && j < BUDDY_ORDERS && Aligned(a, j) && a + Pow2(j) <= limit
      ensures InRoot(l', a, j)
    {
      assert InRoot(l, a, j);
    }
  }

  /** An aligned block inside a first block, all of whose frames are free. */
  ghost predicate FreeNode(l: Layout, a: Pfn, j: nat) {
    Aligned(a, j) && InRoot(l, a, j) && forall p :: In(p, a, j) ==> p in FreePages(l)
  }

  /** Free memory is not split further than what is in use forces: a free node lies in
      one free block. */
  ghost predicate Coalesced(l: Layout) {
    forall a: Pfn, j: nat :: FreeNode(l, a, j) ==>
      a in l.head && l.head[a] in l.blocks && j <= l.blocks[l.head[a]].order
  }

  /** No frame inside a block is marked as on a free list. */
  ghost predicate NoStale(l: Layout, frames: map<Pfn, Frame>) {
    forall p :: p in l.head && l.head[p] != p ==> p in frames && !frames[p].onFreelist
  }

  lemma {:induction false} Pow2Order(j: nat, k: nat)
    requires Pow2(j) <= Pow2(k)
    ensures j <= k
  {
    if k < j {
      Pow2Monotone(k + 1, j);
    }
  }

  lemma {:induction false} AddRootCoalesced(l: Layout, h: Pfn, k: nat)
    requires Tiles(l) && Coalesced(l) && New(l, h, k)
    ensures Coalesced(AddRoot(l, h, k))
  {
    NewHead(l, h, k);
    var l' := AddRoot(l, h, k);
    forall a: Pfn, j: nat | FreeNode(l', a, j)
      ensures a in l'.head && l'.head[a] in l'.blocks && j <= l'.blocks[l'.head[a]].order
    {
      var r :| r in l'.roots && Within(a, j, r, l'.roots[r]);
      if r == h {
        assert In(a, h, k);
        Pow2Order(j, k);
      } else {
        OldNode(l, h, k, r, a, j);
      }
    }
  }

  lemma {:induction false} OldNode(l: Layout, h: Pfn, k: nat, r: Pfn, a: Pfn, j: nat)
    requires Tiles(l) && Coalesced(l) && New(l, h, k) && r in l.roots && Within(a, j, r, l.roots[r])
    requires FreeNode(AddRoot(l, h, k), a, j)
    ensures !In(a, h, k) && FreeNode(l, a, j) && h !in l.blocks && a in l.head && l.head[a] in l.blocks
  {
    NewHead(l, h, k);
    hide Aligned;
    var l' := AddRoot(l, h, k);
    assert InRoot(l, a, j);
    forall p | In(p, a, j) ensures p in FreePages(l) {
      assert In(p, r, l.roots[r]);
      assert p in FreePages(l');
      HeadsKnown(l, p);
    }
    assert In(a, a, j);
  }

  // ------------------------------------------------------- splitting down to a page

  /** While block `h` is split towards `init`: every node in it is in one block, or
      still has `init` inside it. */
  ghost predicate Chain(l: Layout, h: Pfn, k: nat, init: Pfn) {
    forall a: Pfn, j: nat :: In(a, h, k) && Aligned(a, j) && j <= k ==>
      || (a in l.head && l.head[a] in l.blocks && j <= l.blocks[l.head[a]].order)
      || In(init, a, j)
  }

  lemma {:induction false} ChainStart(l: Layout, h: Pfn, k: nat)
    requires Exclusive(l) && h in l.blocks && l.blocks[h].order == k
    ensures Chain(l, h, k, h)
  {
    hide Aligned;
  }

  lemma {:induction false} ChainNode(l: Layout, init: Pfn, k: nat, mid: Pfn, a: Pfn, j: nat)
    requires Tiles(l) && Halves(l, init, k, mid) && Aligned(a, j) && a in l.head && l.head[a] in l.blocks
    requires j <= l.blocks[l.head[a]].order || In(init, a, j)
    ensures var l' := SplitAt(l, init, k, mid);
            || (a in l'.head && l'.head[a] in l'.blocks && j <= l'.blocks[l'.head[a]].order)
            || (In(init, a, j) && In(mid, a, j))
  {
    OrderBound(l, init);
    MidInside(l, init, k, mid);
    TilesParts(l);
    assert In(a, l.head[a], l.blocks[l.head[a]].order);
    OwnHead(l, init);
    if l.head[a] == init && j == k + 1 {
      SameStart(a, k + 1, init, j);
    } else if In(init, a, j) {
      if k + 1 <= j {
        Nested(init, k + 1, a, j);
      } else {
        SameStart(init, j, a, k + 1);
      }
    }
  }

  lemma {:induction false} ChainSplit(l: Layout, h: Pfn, k0: nat, init: Pfn, k: nat, mid: Pfn)
    requires Tiles(l) && Chain(l, h, k0, init) && Halves(l, init, k, mid)
    requires forall p :: In(p, h, k0) ==> p in l.head
    ensures Chain(SplitAt(l, init, k, mid), h, k0, init) && Chain(SplitAt(l, init, k, mid), h, k0, mid)
  {
    hide Aligned, SplitAt;
    var l' := SplitAt(l, init, k, mid);
    forall a: Pfn, j: nat | In(a, h, k0) && Aligned(a, j) && j <= k0
      ensures || (a in l'.head && l'.head[a] in l'.blocks && j <= l'.blocks[l'.head[a]].order)
              || (In(init, a, j) && In(mid, a, j))
    {
      HeadsKnown(l, a);
      ChainNode(l, init, k, mid, a, j);
    }
  }

  /** The two layouts differ only inside block `h` of the first. */
  ghost predicate SameOutside(l0: Layout, l: Layout, h: Pfn) {
    && l.head.Keys == l0.head.Keys && l.roots == l0.roots
    && (forall p :: p in l0.head && l0.head[p] != h ==> l.head[p] == l0.head[p])
    && (forall g :: g in l0.blocks && g != h ==> g in l.blocks && l.blocks[g] == l0.blocks[g])
  }

  lemma {:induction false} SplitOutside(l0: Layout, l: Layout, h: Pfn, init: Pfn, k: nat, mid: Pfn)
    requires SameOutside(l0, l, h) && Covers(l0) && init in l.blocks && (init == h || init !in l0.blocks)
    requires mid !in l0.blocks
    ensures SameOutside(l0, SplitAt(l, init, k, mid), h)
  {
    var l' := SplitAt(l, init, k, mid);
    forall p | p in l0.head && l0.head[p] != h ensures l'.head[p] == l0.head[p] {
      assert l.head[p] == l0.head[p];
    }
  }

  lemma {:induction false} ChainKept(l0: Layout, l: Layout, h: Pfn, k0: nat, page: Pfn, a: Pfn, j: nat)
    requires Covers(l0) && Coalesced(l0) && h in l0.blocks && l0.blocks[h].order == k0
    requires SameOutside(l0, l, h) && Chain(l, h, k0, page) && FreeNode(l0, a, j) && !In(page, a, j)
    ensures a in l.head && l.head[a] in l.blocks && j <= l.blocks[l.head[a]].order
  {
    hide FreePages;
    assert Aligned(a, j);
    assert In(a, l0.head[a], l0.blocks[l0.head[a]].order);
    hide Aligned, FreeNode, Coalesced;
  }

  /** Taking the page out restores the invariant that splitting suspended. */
  lemma {:induction false} ChainEnd(l0: Layout, l: Layout, h: Pfn, k0: nat, page: Pfn, kind: Kind)
    requires Covers(l0) && Coalesced(l0) && h in l0.blocks && l0.blocks[h].order == k0
    requires SameOutside(l0, l, h) && Chain(l, h, k0, page) && FreePages(l) == FreePages(l0)
    requires page in l.blocks && page in l.head && l.head[page] == page && !IsFree(kind)
    ensures Coalesced(WithKind(l, page, kind))
  {
    var l' := WithKind(l, page, kind);
    hide FreeNode, Chain, SameOutside, FreePages, In, Covers;
    forall a: Pfn, j: nat | FreeNode(l', a, j)
      ensures a in l'.head && l'.head[a] in l'.blocks && j <= l'.blocks[l'.head[a]].order
    {
      StillFree(l0, l, h, page, kind, a, j);
      ChainKept(l0, l, h, k0, page, a, j);
    }
  }

  lemma {:induction false} StillFree(l0: Layout, l: Layout, h: Pfn, page: Pfn, kind: Kind, a: Pfn, j: nat)
    requires SameOutside(l0, l, h) && FreePages(l) == FreePages(l0)
    requires page in l.blocks && page in l.head && l.head[page] == page
    requires !IsFree(kind) && FreeNode(WithKind(l, page, kind), a, j)
    ensures FreeNode(l0, a, j) && !In(page, a, j)
  {
    hide Aligned;
    var l' := WithKind(l, page, kind);
    assert InRoot(l', a, j) ==> InRoot(l0, a, j);
    forall p | In(p, a, j) ensures p in FreePages(l0) && p != page {
      assert p in FreePages(l');
      assert p in FreePages(l);
    }
  }

  // --------------------------------------------------------------- taking a page out

  lemma {:induction false} StepInside(h: Pfn, k: nat, p: Pfn, o: nat)
    requires Aligned(h, k) && Natural(p, o) && In(p, h, k) && p != h
    ensures Pow2(o) <= p - h
  {
    NaturalAligned(p, o);
    hide Natural;
    if k <= o {
      SameStart(p, k, h, o);
    }
    AlignedLess(h, o, k);
    AlignedSum(p, h, o);
    MultipleAtLeast(p - h, Pow2(o));
  }

  /** From a frame inside a block, stepping back by its recorded order stays inside. */
  lemma {:induction false} StepDown(l: Layout, frames: map<Pfn, Frame>, p: Pfn)
    requires Tiles(l) && FramesOk(l, frames) && p in l.head && l.head[p] != p
    ensures p in frames && Pow2(frames[p].order) <= p - l.head[p]
    ensures p - Pow2(frames[p].order) in l.head && l.head[p - Pow2(frames[p].order)] == l.head[p]
  {
    hide Aligned, Natural, Pow2;
    var h, o := l.head[p], frames[p].order;
    StepInside(h, l.blocks[h].order, p, o);
    assert In(p - Pow2(o), h, l.blocks[h].order);
  }

  /** Where the descent from block `h` of `l0` towards `page` stands: block `init`, of
      order `o`, holds the page. */
  ghost predicate Down(l0: Layout, l: Layout, h: Pfn, init: Pfn, o: nat, page: Pfn, order: nat) {
    && h in l0.blocks && FreeAt(l, init, o) && order <= o && In(page, init, o) && Within(init, o, h, l0.blocks[h].order)
    && SameOutside(l0, l, h) && Chain(l, h, l0.blocks[h].order, init) && FreePages(l) == FreePages(l0)
    && WiredPages(l) == WiredPages(l0)
  }

  lemma {:induction false} DownStart(l: Layout, page: Pfn, order: nat)
    requires Tiles(l) && page in l.head && l.head[page] in l.blocks && l.blocks[l.head[page]].kind.Free?
    requires order <= l.blocks[l.head[page]].order
    ensures Down(l, l, l.head[page], l.head[page], l.blocks[l.head[page]].order, page, order)
  {
    TilesParts(l);
    hide Aligned;
    ChainStart(l, l.head[page], l.blocks[l.head[page]].order);
  }

  lemma {:induction false} MidOutside(l0: Layout, h: Pfn, init: Pfn, o: nat, mid: Pfn)
    requires Tiles(l0) && h in l0.blocks && Within(init, o, h, l0.blocks[h].order) && init < mid < init + Pow2(o)
    ensures mid !in l0.blocks && (init == h || init !in l0.blocks)
    ensures forall p :: In(p, h, l0.blocks[h].order) ==> p in l0.head
  {
    TilesParts(l0);
    hide Aligned;
    var k := l0.blocks[h].order;
    assert In(mid, h, k) && In(init, h, k);
    OwnHead(l0, mid);
    OwnHead(l0, init);
  }

  /** The page is in one of the halves, which is still inside the first block. */
  lemma {:induction false} DownHalf(h: Pfn, k0: nat, init: Pfn, k: nat, mid: Pfn, page: Pfn)
    requires In(page, init, k + 1) && Within(init, k + 1, h, k0) && mid == init + Pow2(k)
    ensures var next := if mid <= page then mid else init; In(page, next, k) && Within(next, k, h, k0)
    ensures init < mid < init + Pow2(k + 1)
  {
    assert Pow2(k + 1) == 2 * Pow2(k);
  }

  /** One split of the descent. */
  lemma {:induction false} DownSplit(l0: Layout, l: Layout, h: Pfn, init: Pfn, k: nat, mid: Pfn, page: Pfn, order: nat)
    requires Tiles(l0) && Tiles(l) && Down(l0, l, h, init, k + 1, page, order) && order <= k && mid == init + Pow2(k)
    ensures init in l.blocks && mid !in l.blocks
    ensures Down(l0, SplitAt(l, init, k, mid), h, if mid <= page then mid else init, k, page, order)
  {
    hide Tiles, Aligned, Natural, SameOutside, Chain, FreePages, WiredPages, In, Within;
    DownHalf(h, l0.blocks[h].order, init, k, mid, page);
    MidOutside(l0, h, init, k + 1, mid);
    MidInside(l, init, k, mid);
    TilesParts(l0);
    TilesParts(l);
    hide Covers, Exclusive, Shapes, RootsOk;
    OutsideKeys(l0, l, h);
    ChainSplit(l, h, l0.blocks[h].order, init, k, mid);
    SplitOutside(l0, l, h, init, k, mid);
    SplitFree(l, init, k, mid);
  }

  /** Any page of the block the descent has reached will do to go on with. */
  lemma {:induction false} DownAny(l0: Layout, l: Layout, h: Pfn, init: Pfn, o: nat, page: Pfn, other: Pfn, order: nat)
    requires Down(l0, l, h, init, o, page, order) && In(other, init, o)
    ensures Down(l0, l, h, init, o, other, order)
  {
  }

  lemma {:induction false} OutsideKeys(l0: Layout, l: Layout, h: Pfn)
    requires SameOutside(l0, l, h)
    ensures l.head.Keys == l0.head.Keys && l.roots == l0.roots
  {
  }

  lemma {:induction false} StaleSplit(l: Layout, frames: map<Pfn, Frame>, h: Pfn, k: nat, mid: Pfn)
    requires NoStale(l, frames) && h in l.blocks && h in frames && mid in frames && h in l.head && l.head[h] == h
    requires mid in l.head && l.head[mid] == h && h < mid
    ensures NoStale(SplitAt(l, h, k, mid), SplitFrames(frames, h, k, mid))
  {
    var l', frames' := SplitAt(l, h, k, mid), SplitFrames(frames, h, k, mid);
    forall p | p in l'.head && l'.head[p] != p ensures p in frames' && !frames'[p].onFreelist {
      assert p in l.head;
    }
  }

  lemma {:induction false} DownEnd(l0: Layout, l: Layout, h: Pfn, init: Pfn, page: Pfn, order: nat, kind: Kind)
    requires Tiles(l0) && Tiles(l) && Down(l0, l, h, init, order, page, order) && Aligned(page, order)
    requires !IsFree(kind)
    ensures init == page && page in l.blocks && l.blocks[page] == Block(order, Free)
    ensures Coalesced(l0) ==> Coalesced(WithKind(l, page, kind))
  {
    OrderBound(l, init);
    SameStart(page, order, init, order);
    assert In(page, page, order);
    TilesParts(l0);
    TilesParts(l);
    hide Aligned, Chain, SameOutside, Coalesced;
    if Coalesced(l0) {
      ChainEnd(l0, l, h, l0.blocks[h].order, page, kind);
    }
  }

  // ------------------------------------------------------------ building a region

  /** Frame `p` of a region ending at `limit` as the first pass leaves it. */
  ghost predicate Prepared(frames: map<Pfn, Frame>, p: Pfn, limit: nat) {
    p in frames && frames[p].maxOrder == 0 && !frames[p].onFreelist && BestOrder(p, limit, frames[p].order)
  }

  /** Part of a region from `base` to `limit` has been divided, up to `i`. */
  ghost predicate Built(l: Layout, frames: map<Pfn, Frame>, base: nat, i: nat, limit: nat) {
    && (forall p :: i <= p < limit ==> p !in l.head && Prepared(frames, p, limit))
    && (forall a :: base <= a < i ==> HasRoot(l, a, limit))
  }

  ghost predicate RootsKept(l: Layout, l': Layout) {
    forall r :: r in l.roots ==> r in l'.roots && l'.roots[r] == l.roots[r]
  }

  lemma {:induction false} RootsKeptThen(l: Layout, l1: Layout, l2: Layout)
    requires RootsKept(l, l1) && RootsKept(l1, l2)
    ensures RootsKept(l, l2)
  {
  }

  lemma {:induction false} HasRootStays(l: Layout, l': Layout, a: Pfn, limit: nat)
    requires HasRoot(l, a, limit) && RootsKept(l, l')
    ensures HasRoot(l', a, limit)
  {
    hide BestOrder;
    var r :| RootFor(l, r, a, limit);
    assert RootFor(l', r, a, limit);
  }

  /** The frames of a new block, ready to be one. */
  ghost predicate Ready(frames: map<Pfn, Frame>, h: Pfn, k: nat) {
    && h in frames && frames[h].order == k
    && (forall p :: In(p, h, k) ==> p in frames && frames[p].maxOrder == 0 && !frames[p].onFreelist)
    && (forall p :: In(p, h, k) && p != h ==> Natural(p, frames[p].order))
  }

  /** The next first block of a region is new and its frames are ready. */
  lemma {:induction false} NextRoot(l: Layout, frames: map<Pfn, Frame>, base: nat, i: Pfn, limit: nat)
    requires Built(l, frames, base, i, limit) && 0 < base <= i < limit
    ensures i in frames && i + Pow2(frames[i].order) <= limit && New(l, i, frames[i].order)
    ensures Ready(frames, i, frames[i].order)
  {
    assert Prepared(frames, i, limit);
    var k := frames[i].order;
    forall p | In(p, i, k)
      ensures p in frames && frames[p].maxOrder == 0 && !frames[p].onFreelist && p !in l.head
      ensures p != i ==> Natural(p, frames[p].order)
    {
      assert Prepared(frames, p, limit);
      if p != i {
        InnerNatural(i, k, limit, p, frames[p].order);
      }
    }
  }

  lemma {:induction false} BuiltNext(l: Layout, frames: map<Pfn, Frame>, base: nat, i: Pfn, limit: nat)
    requires Tiles(l) && Built(l, frames, base, i, limit) && 0 < base <= i < limit && i in frames
    requires New(l, i, frames[i].order) && i + Pow2(frames[i].order) <= limit
    ensures var k := frames[i].order;
            var l' := AddRoot(l, i, k);
            && Built(l', frames[i := frames[i].(onFreelist := true, maxOrder := k)], base, i + Pow2(k), limit)
            && RootsKept(l, l')
  {
    var k := frames[i].order;
    var l', frames' := AddRoot(l, i, k), frames[i := frames[i].(onFreelist := true, maxOrder := k)];
    assert Prepared(frames, i, limit);
    NewHead(l, i, k);
    hide Tiles, New, BestOrder, Aligned, AddRoot, Pow2, HasRoot;
    forall p | i + Pow2(k) <= p < limit ensures p !in l'.head && Prepared(frames', p, limit) {
      assert Prepared(frames, p, limit);
    }
    NewRoots(l, i, k);
    forall a | base <= a < i + Pow2(k) ensures HasRoot(l', a, limit) {
      if a < i {
        HasRootStays(l, l', a, limit);
      } else {
        OwnRoot(l', i, k, a, limit);
      }
    }
  }

  lemma {:induction false} NewRoots(l: Layout, h: Pfn, k: nat)
    requires h !in l.roots
    ensures RootsKept(l, AddRoot(l, h, k)) && h in AddRoot(l, h, k).roots && AddRoot(l, h, k).roots[h] == k
  {
  }

  lemma {:induction false} OwnRoot(l: Layout, r: Pfn, k: nat, a: Pfn, limit: nat)
    requires r in l.roots && l.roots[r] == k && In(a, r, k) && BestOrder(r, limit, k)
    ensures HasRoot(l, a, limit)
  {
    hide BestOrder;
    assert RootFor(l, r, a, limit);
  }

  lemma {:induction false} AddRootStale(l: Layout, frames: map<Pfn, Frame>, h: Pfn, k: nat)
    requires Tiles(l) && New(l, h, k) && NoStale(l, frames) && Ready(frames, h, k)
    ensures NoStale(AddRoot(l, h, k), frames[h := frames[h].(onFreelist := true, maxOrder := k)])
  {
    NewHead(l, h, k);
    assert In(h, h, k);
    hide Tiles, New, Aligned, Pow2, AddRoot;
  }
}
