/**
  How the page frames of the added regions are divided into blocks, and how each
  step of the buddy allocator changes that division.
 */
module Buddy {
  import opened Counting
  import opened Numbers
  import opened Queues

  const BUDDY_ORDERS := 16

  type Pfn = nat

  /** A block is on a free list, on its way there, handed out, or removed from use at
      boot. */
  datatype Kind = Free | Freeing | Allocated | Wired

  datatype Block = Block(order: nat, kind: Kind)

  /** The fields of `vm_page` that the allocator keeps. */
  datatype Frame = Frame(order: nat, maxOrder: nat, onFreelist: bool)

  /** Which block each frame is in, what each block is, and the blocks that regions
      were first divided into. */
  datatype Layout = Layout(head: map<Pfn, Pfn>, blocks: map<Pfn, Block>, roots: map<Pfn, nat>)

  // ------------------------------------------------------------------- alignment

  predicate Aligned(a: nat, k: nat) {
    a % Pow2(k) == 0
  }

  /** `Pow2(k)` is the largest power of two that divides `a`. */
  predicate Natural(a: nat, k: nat) {
    Aligned(a, k) && !Aligned(a, k + 1)
  }

  lemma {:induction false} AlignedLess(a: nat, j: nat, k: nat)
    requires Aligned(a, k) && j <= k
    ensures Aligned(a, j)
  {
    Pow2Adds(k - j, j);
    MultipleFactor(a, Pow2(k - j), Pow2(j));
  }

  lemma {:induction false} AlignedSum(a: nat, b: nat, k: nat)
    requires Aligned(a, k) && Aligned(b, k)
    ensures Aligned(a + b, k) && (b <= a ==> Aligned(a - b, k))
  {
    MultipleSum(a, b, Pow2(k));
  }

  lemma {:induction false} AlignedPow(j: nat, k: nat)
    requires j <= k
    ensures Aligned(Pow2(k), j)
  {
    Pow2Adds(k - j, j);
    MultipleMod(Pow2(k - j), Pow2(j));
  }

  /** Aligned blocks nest: one that starts inside another, no larger, ends inside it. */
  lemma {:induction false} Nested(a: nat, j: nat, b: nat, k: nat)
    requires Aligned(a, j) && Aligned(b, k) && j <= k && b <= a < b + Pow2(k)
    ensures a + Pow2(j) <= b + Pow2(k)
  {
    AlignedLess(b, j, k);
    AlignedPow(j, k);
    AlignedSum(b, Pow2(k), j);
    AlignedSum(b + Pow2(k), a, j);
    MultipleAtLeast(b + Pow2(k) - a, Pow2(j));
  }

  /** An aligned start inside a block no larger than its alignment is the block's. */
  lemma {:induction false} SameStart(a: nat, j: nat, b: nat, k: nat)
    requires Aligned(a, k) && Aligned(b, j) && j <= k && b <= a < b + Pow2(j)
    ensures a == b
  {
    AlignedLess(a, j, k);
    AlignedSum(a, b, j);
    if a != b {
      MultipleAtLeast(a - b, Pow2(j));
    }
  }

  lemma {:induction false} NaturalAligned(a: nat, k: nat)
    requires Natural(a, k)
    ensures Aligned(a, k)
  {
  }

  lemma {:induction false} NaturalUnique(a: nat, j: nat, k: nat)
    requires Natural(a, j) && Natural(a, k)
    ensures j == k
  {
    if j < k {
      AlignedLess(a, j + 1, k);
    } else if k < j {
      AlignedLess(a, k + 1, j);
    }
  }

  /** The middle of an aligned block has the order of its halves. */
  lemma {:induction false} MiddleNatural(h: nat, k: nat)
    requires Aligned(h, k + 1)
    ensures Natural(h + Pow2(k), k) && Aligned(h, k)
  {
    AlignedLess(h, k, k + 1);
    AlignedPow(k, k);
    AlignedSum(h, Pow2(k), k);
    if Aligned(h + Pow2(k), k + 1) {
      AlignedSum(h + Pow2(k), h, k + 1);
      MultipleAtLeast(Pow2(k), Pow2(k + 1));
    }
  }

  // ------------------------------------------------------------------ the layout

  function Size(b: Block): nat {
    Pow2(b.order)
  }

  predicate In(p: Pfn, h: Pfn, k: nat) {
    h <= p < h + Pow2(k)
  }

  /** Every frame is in the block it is recorded in. */
  ghost predicate Covers(l: Layout) {
    forall p :: p in l.head ==> l.head[p] in l.blocks && In(p, l.head[p], l.blocks[l.head[p]].order)
  }

  /** A block's extent is its own. */
  ghost predicate Exclusive(l: Layout) {
    forall h, p :: h in l.blocks && In(p, h, l.blocks[h].order) ==> p in l.head && l.head[p] == h
  }

  ghost predicate Shapes(l: Layout) {
    forall h :: h in l.blocks ==> Aligned(h, l.blocks[h].order) && l.blocks[h].order < BUDDY_ORDERS
  }

  ghost predicate RootsOk(l: Layout) {
    && (forall r :: r in l.roots ==> Aligned(r, l.roots[r]) && l.roots[r] < BUDDY_ORDERS)
    && (forall r, p :: r in l.roots && In(p, r, l.roots[r]) ==> p in l.head)
  }

  /** Blocks are aligned to their size and every frame is in exactly one: so they are
      disjoint and tile the regions. */
  ghost predicate Tiles(l: Layout) {
    Covers(l) && Exclusive(l) && Shapes(l) && RootsOk(l)
  }

  /** The recorded fields say what the layout says: exactly at block heads, while a
      frame inside a block records the order it would have as a block. Whether such
      a frame is marked as on a free list is left open: marks go stale. */
  ghost predicate FramesOk(l: Layout, frames: map<Pfn, Frame>) {
    HeadFrames(l, frames) && InnerFrames(l, frames)
  }

  ghost predicate HeadFrames(l: Layout, frames: map<Pfn, Frame>) {
    forall h :: h in l.blocks ==>
      && h in frames && frames[h].order == l.blocks[h].order && (frames[h].onFreelist <==> l.blocks[h].kind.Free?)
  }

  ghost predicate InnerFrames(l: Layout, frames: map<Pfn, Frame>) {
    forall p :: p in l.head ==>
      && p in frames && (l.head[p] != p ==> Natural(p, frames[p].order))
      && frames[p].maxOrder == if p in l.roots then l.roots[p] else 0
  }

  /** Each free list holds exactly the free blocks of its order. */
  ghost predicate QueuesOk(l: Layout, queues: seq<seq<Pfn>>) {
    && |queues| == BUDDY_ORDERS
    && (forall k :: 0 <= k < BUDDY_ORDERS ==> Distinct(queues[k]))
    && (forall k, h :: 0 <= k < BUDDY_ORDERS ==>
          (h in queues[k] <==> h in l.blocks && l.blocks[h] == Block(k, Free)))
  }

  ghost function PagesWhere(l: Layout, sel: Kind -> bool): set<Pfn> {
    set p | p in l.head && l.head[p] in l.blocks && sel(l.blocks[l.head[p]].kind)
  }

  /** The frames that count as free. */
  ghost function FreePages(l: Layout): set<Pfn> {
    PagesWhere(l, IsFree)
  }

  ghost function WiredPages(l: Layout): set<Pfn> {
    PagesWhere(l, IsWired)
  }

  predicate IsWired(kind: Kind) {
    kind.Wired?
  }

  predicate IsFree(kind: Kind) {
    kind.Free? || kind.Freeing?
  }

  lemma {:induction false} OwnHead(l: Layout, g: Pfn)
    requires Exclusive(l)
    ensures g in l.blocks ==> g in l.head && l.head[g] == g
  {
    if g in l.blocks {
      assert In(g, g, l.blocks[g].order);
    }
  }

  lemma {:induction false} HeadOf(l: Layout, h: Pfn, p: Pfn)
    requires Exclusive(l) && h in l.blocks
    ensures In(p, h, l.blocks[h].order) ==> p in l.head && l.head[p] == h
  {
  }

  /** No two blocks overlap. */
  lemma {:induction false} Disjoint(l: Layout, a: Pfn, b: Pfn)
    requires Exclusive(l) && a in l.blocks && b in l.blocks && a < b
    ensures a + Size(l.blocks[a]) <= b
  {
    OwnHead(l, b);
    HeadOf(l, a, b);
  }

  // ------------------------------------------------------------------- splitting

  /** Block `h` becomes two blocks of order `k`, the second at `mid`. */
  function SplitAt(l: Layout, h: Pfn, k: nat, mid: Pfn): Layout
    requires h in l.blocks
  {
    var b := Block(k, l.blocks[h].kind);
    l.(head := map p | p in l.head :: if l.head[p] == h && mid <= p then mid else l.head[p],
       blocks := l.blocks[h := b][mid := b])
  }

  /** `h` heads a block of order `k + 1`, whose second half starts at `mid`. */
  predicate Halves(l: Layout, h: Pfn, k: nat, mid: Pfn) {
    h in l.blocks && l.blocks[h].order == k + 1 && mid == h + Pow2(k)
  }

  lemma {:induction false} MidInside(l: Layout, h: Pfn, k: nat, mid: Pfn)
    requires Tiles(l) && Halves(l, h, k, mid)
    ensures mid in l.head && l.head[mid] == h && mid !in l.blocks && Natural(mid, k) && Aligned(mid, k)
    ensures Aligned(h, k) && h in l.head && l.head[h] == h && mid != h
  {
    assert In(mid, h, k + 1) && In(h, h, k + 1);
    MiddleNatural(h, k);
    OwnHead(l, mid);
  }

  lemma {:induction false} SplitCovers(l: Layout, h: Pfn, k: nat, mid: Pfn)
    requires Covers(l) && Halves(l, h, k, mid) && mid !in l.blocks
    ensures Covers(SplitAt(l, h, k, mid))
  {
    var l' := SplitAt(l, h, k, mid);
    forall p | p in l'.head ensures l'.head[p] in l'.blocks && In(p, l'.head[p], l'.blocks[l'.head[p]].order) {
      assert In(p, l.head[p], l.blocks[l.head[p]].order);
    }
  }

  lemma {:induction false} SplitExclusive(l: Layout, h: Pfn, k: nat, mid: Pfn)
    requires Exclusive(l) && Halves(l, h, k, mid) && mid !in l.blocks
    ensures Exclusive(SplitAt(l, h, k, mid))
  {
    var l' := SplitAt(l, h, k, mid);
    forall g, p | g in l'.blocks && In(p, g, l'.blocks[g].order) ensures p in l'.head && l'.head[p] == g {
      if g == mid || g == h {
        assert In(p, h, k + 1);
      } else {
        assert In(p, g, l.blocks[g].order);
      }
    }
  }

  lemma {:induction false} SplitShapes(l: Layout, h: Pfn, k: nat, mid: Pfn)
    requires Shapes(l) && RootsOk(l) && h in l.blocks && l.blocks[h].order == k + 1 && Aligned(h, k) && Aligned(mid, k)
    ensures Shapes(SplitAt(l, h, k, mid)) && RootsOk(SplitAt(l, h, k, mid))
  {
    hide Aligned, In;
  }

  lemma {:induction false} SplitTiles(l: Layout, h: Pfn, k: nat, mid: Pfn)
    requires Tiles(l) && Halves(l, h, k, mid)
    ensures Tiles(SplitAt(l, h, k, mid))
  {
    MidInside(l, h, k, mid);
    hide Aligned, Natural, Covers, Exclusive, Shapes, RootsOk, SplitAt;
    SplitCovers(l, h, k, mid);
    SplitExclusive(l, h, k, mid);
    SplitShapes(l, h, k, mid);
  }

  /** The fields after a split: the lower half's order, the upper half's mark. */
  function SplitFrames(frames: map<Pfn, Frame>, h: Pfn, k: nat, mid: Pfn): map<Pfn, Frame>
    requires h in frames && mid in frames
  {
    frames[h := frames[h].(order := k)][mid := frames[mid].(onFreelist := true)]
  }

  /** The middle of a block records the order of the half it would head. */
  lemma {:induction false} MidFrame(l: Layout, frames: map<Pfn, Frame>, h: Pfn, k: nat, mid: Pfn)
    requires Tiles(l) && FramesOk(l, frames) && Halves(l, h, k, mid)
    ensures h in frames && mid in frames && frames[mid].order == k
  {
    MidInside(l, h, k, mid);
    NaturalUnique(mid, frames[mid].order, k);
  }

  lemma {:induction false} SplitHeadFrames(l: Layout, frames: map<Pfn, Frame>, h: Pfn, k: nat, mid: Pfn)
    requires HeadFrames(l, frames) && h in l.blocks && l.blocks[h].kind.Free? && mid in frames
    requires frames[mid].order == k && mid != h
    ensures HeadFrames(SplitAt(l, h, k, mid), SplitFrames(frames, h, k, mid))
  {
  }

  lemma {:induction false} SplitInnerFrames(l: Layout, frames: map<Pfn, Frame>, h: Pfn, k: nat, mid: Pfn)
    requires InnerFrames(l, frames) && h in l.blocks && h in frames && mid in frames && h in l.head && l.head[h] == h
    requires h < mid
    ensures InnerFrames(SplitAt(l, h, k, mid), SplitFrames(frames, h, k, mid))
  {
    hide Natural;
    var l', frames' := SplitAt(l, h, k, mid), SplitFrames(frames, h, k, mid);
    forall p | p in l'.head
      ensures p in frames' && (l'.head[p] != p ==> Natural(p, frames'[p].order))
      ensures frames'[p].maxOrder == if p in l'.roots then l'.roots[p] else 0
    {
      assert p in l.head && p in frames && (l.head[p] != p ==> Natural(p, frames[p].order));
    }
  }

  lemma {:induction false} SplitFramesOk(l: Layout, frames: map<Pfn, Frame>, h: Pfn, k: nat, mid: Pfn)
    requires Tiles(l) && FramesOk(l, frames) && Halves(l, h, k, mid) && l.blocks[h].kind.Free?
    ensures h in frames && mid in frames && FramesOk(SplitAt(l, h, k, mid), SplitFrames(frames, h, k, mid))
  {
    MidFrame(l, frames, h, k, mid);
    MidInside(l, h, k, mid);
    hide Natural, Aligned, Tiles, InnerFrames, HeadFrames, SplitAt, SplitFrames;
    SplitHeadFrames(l, frames, h, k, mid);
    SplitInnerFrames(l, frames, h, k, mid);
  }

  lemma {:induction false} SplitFree(l: Layout, h: Pfn, k: nat, mid: Pfn)
    requires Covers(l) && h in l.blocks && mid !in l.blocks
    ensures FreePages(SplitAt(l, h, k, mid)) == FreePages(l) && WiredPages(SplitAt(l, h, k, mid)) == WiredPages(l)
  {
    var l' := SplitAt(l, h, k, mid);
    forall p ensures p in FreePages(l') <==> p in FreePages(l)
             ensures p in WiredPages(l') <==> p in WiredPages(l) {
    }
  }

  // ------------------------------------------------------------ changing a block

  function WithKind(l: Layout, h: Pfn, kind: Kind): Layout
    requires h in l.blocks
  {
    l.(blocks := l.blocks[h := l.blocks[h].(kind := kind)])
  }

  lemma {:induction false} KindTiles(l: Layout, h: Pfn, kind: Kind)
    requires Tiles(l) && h in l.blocks
    ensures Tiles(WithKind(l, h, kind))
  {
    hide Aligned, In;
  }

  lemma {:induction false} KindFrames(l: Layout, frames: map<Pfn, Frame>, h: Pfn, kind: Kind)
    requires FramesOk(l, frames) && h in l.blocks
    ensures FramesOk(WithKind(l, h, kind), frames[h := frames[h].(onFreelist := kind.Free?)])
  {
    hide Natural;
  }

  /** The frames from `a` on, `n` of them. */
  ghost function Extent(a: Pfn, n: nat): set<Pfn> {
    if n == 0 then {} else Extent(a, n - 1) + {a + n - 1}
  }

  ghost function Joined(f: set<Pfn>, a: Pfn, n: nat): set<Pfn> {
    f + Extent(a, n)
  }

  ghost function Dropped(f: set<Pfn>, a: Pfn, n: nat): set<Pfn> {
    f - Extent(a, n)
  }

  lemma {:induction false} ExtentHas(a: Pfn, n: nat)
    ensures |Extent(a, n)| == n && forall p :: p in Extent(a, n) <==> a <= p < a + n
  {
    if n > 0 {
      ExtentHas(a, n - 1);
    }
  }

  /** `e` is the set of frames of block `h`. */
  ghost predicate IsExtent(l: Layout, h: Pfn, e: set<Pfn>) {
    forall p :: p in e <==> p in l.head && l.head[p] == h
  }

  lemma {:induction false} ExtentIs(l: Layout, h: Pfn)
    requires Covers(l) && Exclusive(l) && h in l.blocks
    ensures IsExtent(l, h, Extent(h, Pow2(l.blocks[h].order)))
  {
    ExtentHas(h, Pow2(l.blocks[h].order));
    hide Extent;
    forall p ensures p in Extent(h, Pow2(l.blocks[h].order)) <==> p in l.head && l.head[p] == h {
      assert p in Extent(h, Pow2(l.blocks[h].order)) <==> p >= 0 && In(p, h, l.blocks[h].order);
    }
  }

  lemma {:induction false} KindPagesWhere(l: Layout, h: Pfn, kind: Kind, sel: Kind -> bool, e: set<Pfn>)
    requires h in l.blocks && IsExtent(l, h, e)
    ensures |PagesWhere(WithKind(l, h, kind), sel)| ==
            |PagesWhere(l, sel)| + |e| * (B(sel(kind)) - B(sel(l.blocks[h].kind)))
  {
    var a, b := PagesWhere(l, sel), PagesWhere(WithKind(l, h, kind), sel);
    forall p ensures p in a - e <==> p in b - e {
    }
    PagesApart(a, b, e, sel(l.blocks[h].kind), sel(kind));
  }

  /** The frames of a block leave or join those that are free or wired. */
  lemma {:induction false} KindPages(l: Layout, h: Pfn, kind: Kind)
    requires Covers(l) && Exclusive(l) && h in l.blocks
    ensures var k, l' := l.blocks[h].order, WithKind(l, h, kind);
            && |FreePages(l')| == |FreePages(l)| + Pow2(k) * (B(IsFree(kind)) - B(IsFree(l.blocks[h].kind)))
            && |WiredPages(l')| == |WiredPages(l)| + Pow2(k) * (B(IsWired(kind)) - B(IsWired(l.blocks[h].kind)))
  {
    hide Covers, Exclusive, Pow2, PagesWhere, WithKind, Extent, IsExtent, B, IsFree, IsWired;
    ExtentIs(l, h);
    var e := Extent(h, Pow2(l.blocks[h].order));
    ExtentHas(h, Pow2(l.blocks[h].order));
    KindPagesWhere(l, h, kind, IsFree, e);
    KindPagesWhere(l, h, kind, IsWired, e);
  }

  lemma {:induction false} PartCard(a: set<Pfn>, e: set<Pfn>, inside: bool)
    requires if inside then e <= a else e !! a
    ensures |a| == |a - e| + |e| * B(inside)
  {
    assert a == (a - e) + if inside then e else {};
  }

  lemma {:induction false} PagesApart(a: set<Pfn>, b: set<Pfn>, e: set<Pfn>, before: bool, after: bool)
    requires a - e == b - e && (if before then e <= a else e !! a) && (if after then e <= b else e !! b)
    ensures |b| == |a| + |e| * (B(after) - B(before))
  {
    PartCard(a, e, before);
    PartCard(b, e, after);
  }

  // --------------------------------------------------------------------- merging

  /** Blocks `h` and `b`, of order `k`, become one headed by `h`. */
  function MergeAt(l: Layout, h: Pfn, k: nat, b: Pfn): Layout
    requires h in l.blocks
  {
    l.(head := map p | p in l.head :: if l.head[p] == b then h else l.head[p],
       blocks := (l.blocks - {b})[h := l.blocks[h].(order := k + 1)])
  }

  predicate Mergeable(l: Layout, h: Pfn, k: nat, b: Pfn) {
    && h in l.blocks && b in l.blocks && l.blocks[h].order == k && l.blocks[b].order == k && b == h + Pow2(k)
    && Aligned(h, k + 1) && k + 1 < BUDDY_ORDERS
  }

  lemma {:induction false} MergeCovers(l: Layout, h: Pfn, k: nat, b: Pfn)
    requires Covers(l) && Mergeable(l, h, k, b)
    ensures Covers(MergeAt(l, h, k, b))
  {
    hide Aligned;
    assert Pow2(k + 1) == 2 * Pow2(k);
    forall p | p in l.head ensures In(p, l.head[p], l.blocks[l.head[p]].order) {
    }
  }

  lemma {:induction false} MergeExclusive(l: Layout, h: Pfn, k: nat, b: Pfn)
    requires Exclusive(l) && Mergeable(l, h, k, b)
    ensures Exclusive(MergeAt(l, h, k, b))
  {
    hide Aligned;
    var l' := MergeAt(l, h, k, b);
    assert Pow2(k + 1) == 2 * Pow2(k);
    forall g, p | g in l'.blocks && In(p, g, l'.blocks[g].order) ensures p in l'.head && l'.head[p] == g {
      if g == h {
        assert In(p, h, k) || In(p, b, k);
      } else {
        assert In(p, g, l.blocks[g].order);
      }
    }
  }

  lemma {:induction false} MergeShapes(l: Layout, h: Pfn, k: nat, b: Pfn)
    requires Shapes(l) && RootsOk(l) && Mergeable(l, h, k, b)
    ensures Shapes(MergeAt(l, h, k, b)) && RootsOk(MergeAt(l, h, k, b))
  {
    hide Aligned, In, Pow2;
  }

  lemma {:induction false} MergeTiles(l: Layout, h: Pfn, k: nat, b: Pfn)
    requires Tiles(l) && Mergeable(l, h, k, b)
    ensures Tiles(MergeAt(l, h, k, b))
  {
    hide Covers, Exclusive, Shapes, RootsOk, MergeAt, Aligned;
    MergeCovers(l, h, k, b);
    MergeExclusive(l, h, k, b);
    MergeShapes(l, h, k, b);
  }

  lemma {:induction false} MergeFrames(l: Layout, frames: map<Pfn, Frame>, h: Pfn, k: nat, b: Pfn)
    requires FramesOk(l, frames) && Mergeable(l, h, k, b)
    ensures h in frames && FramesOk(MergeAt(l, h, k, b), frames[h := frames[h].(order := k + 1)])
  {
    MiddleNatural(h, k);
    hide Natural, Aligned, Pow2;
  }

  lemma {:induction false} MergeFree(l: Layout, h: Pfn, k: nat, b: Pfn)
    requires Covers(l) && h in l.blocks && b in l.blocks && h != b && IsFree(l.blocks[h].kind)
    requires IsFree(l.blocks[b].kind)
    ensures FreePages(MergeAt(l, h, k, b)) == FreePages(l) && WiredPages(MergeAt(l, h, k, b)) == WiredPages(l)
  {
    var l' := MergeAt(l, h, k, b);
    forall p ensures p in FreePages(l') <==> p in FreePages(l)
             ensures p in WiredPages(l') <==> p in WiredPages(l) {
    }
  }

  /** The frame a freed block would merge with is never inside another block: its
      recorded order and mark are those of a block, so stale ones are not read. */
  lemma {:induction false} BuddyIsHead(l: Layout, h: Pfn)
    requires Covers(l) && Exclusive(l) && Shapes(l) && h in l.blocks && Aligned(h, l.blocks[h].order + 1)
    requires h + Pow2(l.blocks[h].order) in l.head
    ensures h + Pow2(l.blocks[h].order) in l.blocks
  {
    var k := l.blocks[h].order;
    var q := h + Pow2(k);
    var g := l.head[q];
    var j := l.blocks[g].order;
    assert In(q, g, j);
    MiddleNatural(h, k);
    OwnHead(l, h);
    if j <= k {
      SameStart(q, j, g, k);
    } else {
      AlignedLess(g, k + 1, j);
      HalfInside(g, j, h, k);
      HeadOf(l, g, h);
    }
  }

  /** A larger aligned block that holds the middle of an aligned pair holds its start. */
  lemma {:induction false} HalfInside(g: Pfn, j: nat, h: Pfn, k: nat)
    requires Aligned(g, k + 1) && Aligned(h, k + 1) && In(h + Pow2(k), g, j) && k < j
    ensures In(h, g, j)
  {
    assert Pow2(k + 1) == 2 * Pow2(k);
    if h < g {
      AlignedSum(g, h, k + 1);
      MultipleAtLeast(g - h, Pow2(k + 1));
    }
  }

  // ------------------------------------------------------------------ free lists

  function Enlist(queues: seq<seq<Pfn>>, k: nat, h: Pfn): seq<seq<Pfn>>
    requires k < |queues|
  {
    queues[k := [h] + queues[k]]
  }

  function Delist(queues: seq<seq<Pfn>>, k: nat, h: Pfn): seq<seq<Pfn>>
    requires k < |queues|
  {
    queues[k := Without(queues[k], h)]
  }

  /** Only `h` changes its standing among the free blocks. */
  ghost predicate OnlyBlock(l: Layout, l': Layout, h: Pfn) {
    forall g :: g != h ==> (g in l.blocks <==> g in l'.blocks) && (g in l.blocks ==> l'.blocks[g] == l.blocks[g])
  }

  predicate FreeAt(l: Layout, h: Pfn, k: nat) {
    h in l.blocks && l.blocks[h] == Block(k, Free)
  }

  lemma {:induction false} EnlistOk(l: Layout, l': Layout, queues: seq<seq<Pfn>>, k: nat, h: Pfn)
    requires QueuesOk(l, queues) && OnlyBlock(l, l', h) && k < BUDDY_ORDERS
    requires (forall j :: !FreeAt(l, h, j)) && FreeAt(l', h, k)
    ensures QueuesOk(l', Enlist(queues, k, h))
  {
    assert FreeAt(l, h, k) || h !in queues[k];
    WithFirst(h, queues[k]);
    var queues' := Enlist(queues, k, h);
    forall j, g | 0 <= j < BUDDY_ORDERS ensures g in queues'[j] <==> g in l'.blocks && l'.blocks[g] == Block(j, Free) {
      assert g in queues[j] <==> g in l.blocks && l.blocks[g] == Block(j, Free);
      assert g == h ==> !FreeAt(l, h, j);
    }
  }

  lemma {:induction false} DelistOk(l: Layout, l': Layout, queues: seq<seq<Pfn>>, k: nat, h: Pfn)
    requires QueuesOk(l, queues) && OnlyBlock(l, l', h) && k < BUDDY_ORDERS
    requires FreeAt(l, h, k) && (forall j :: !FreeAt(l', h, j))
    ensures QueuesOk(l', Delist(queues, k, h))
  {
    WithoutDistinct(queues[k], h);
    var queues' := Delist(queues, k, h);
    forall j, g | 0 <= j < BUDDY_ORDERS ensures g in queues'[j] <==> g in l'.blocks && l'.blocks[g] == Block(j, Free) {
      assert g in queues[j] <==> g in l.blocks && l.blocks[g] == Block(j, Free);
      assert g == h ==> !FreeAt(l', h, j);
    }
  }

  // --------------------------------------------------------- whole steps

  /** The layout, the recorded fields and the free lists agree. */
  ghost predicate Good(l: Layout, frames: map<Pfn, Frame>, queues: seq<seq<Pfn>>) {
    Tiles(l) && FramesOk(l, frames) && QueuesOk(l, queues)
  }

  function WithBlock(l: Layout, h: Pfn, b: Block): Layout {
    l.(blocks := l.blocks[h := b])
  }

  lemma {:induction false} SplitQueues(l: Layout, queues: seq<seq<Pfn>>, h: Pfn, k: nat, mid: Pfn)
    requires QueuesOk(l, queues) && FreeAt(l, h, k + 1) && k + 1 < BUDDY_ORDERS && mid !in l.blocks && mid != h
    ensures |queues| == BUDDY_ORDERS
    ensures var l' := WithBlock(WithBlock(l, h, Block(k, Free)), mid, Block(k, Free));
            && QueuesOk(l', Enlist(Enlist(Delist(queues, k + 1, h), k, h), k, mid))
            && QueuesOk(l', Enlist(Enlist(Delist(queues, k + 1, h), k, mid), k, h))
  {
    var l1 := WithBlock(l, h, Block(k, Freeing));
    DelistOk(l, l1, queues, k + 1, h);
    var q1 := Delist(queues, k + 1, h);
    var l2 := WithBlock(l1, h, Block(k, Free));
    EnlistOk(l1, l2, q1, k, h);
    var l' := WithBlock(WithBlock(l, h, Block(k, Free)), mid, Block(k, Free));
    EnlistOk(l2, l', Enlist(q1, k, h), k, mid);
    var l3 := WithBlock(l1, mid, Block(k, Free));
    EnlistOk(l1, l3, q1, k, mid);
    EnlistOk(l3, l', Enlist(q1, k, mid), k, h);
  }

  lemma {:induction false} QueuesByBlocks(l: Layout, l': Layout, queues: seq<seq<Pfn>>)
    requires QueuesOk(l, queues) && l'.blocks == l.blocks
    ensures QueuesOk(l', queues)
  {
  }

  /** The free lists after `h` is split, whichever half goes on the list first. */
  function SplitLists(queues: seq<seq<Pfn>>, h: Pfn, k: nat, first: Pfn, second: Pfn): seq<seq<Pfn>>
    requires k + 1 < |queues|
  {
    Enlist(Enlist(Delist(queues, k + 1, h), k, first), k, second)
  }

  lemma {:induction false} SplitGood(l: Layout, frames: map<Pfn, Frame>, queues: seq<seq<Pfn>>, h: Pfn, k: nat,
                                     mid: Pfn)
    requires Good(l, frames, queues) && Halves(l, h, k, mid) && l.blocks[h].kind.Free?
    ensures k + 1 < |queues| && h in frames && mid in frames
    ensures var l', frames' := SplitAt(l, h, k, mid), SplitFrames(frames, h, k, mid);
            && Good(l', frames', SplitLists(queues, h, k, h, mid))
            && Good(l', frames', SplitLists(queues, h, k, mid, h))
            && FreePages(l') == FreePages(l) && WiredPages(l') == WiredPages(l)
  {
    TakeIndex(l, frames, queues, h, k + 1);
    hide Tiles, FramesOk, QueuesOk, Natural, Aligned, FreePages, WiredPages, SplitAt, SplitFrames;
    TilesParts(l);
    MidInside(l, h, k, mid);
    SplitTiles(l, h, k, mid);
    SplitFramesOk(l, frames, h, k, mid);
    SplitFree(l, h, k, mid);
    SplitQueuesOk(l, queues, h, k, mid);
  }

  lemma {:induction false} SplitQueuesOk(l: Layout, queues: seq<seq<Pfn>>, h: Pfn, k: nat, mid: Pfn)
    requires QueuesOk(l, queues) && FreeAt(l, h, k + 1) && k + 1 < BUDDY_ORDERS && mid !in l.blocks && mid != h
    ensures |queues| == BUDDY_ORDERS
    ensures QueuesOk(SplitAt(l, h, k, mid), SplitLists(queues, h, k, h, mid))
    ensures QueuesOk(SplitAt(l, h, k, mid), SplitLists(queues, h, k, mid, h))
  {
    SplitQueues(l, queues, h, k, mid);
    var l2 := WithBlock(WithBlock(l, h, Block(k, Free)), mid, Block(k, Free));
    QueuesByBlocks(l2, SplitAt(l, h, k, mid), SplitLists(queues, h, k, h, mid));
    QueuesByBlocks(l2, SplitAt(l, h, k, mid), SplitLists(queues, h, k, mid, h));
  }

  lemma {:induction false} TilesParts(l: Layout)
    requires Tiles(l)
    ensures Covers(l) && Exclusive(l) && Shapes(l) && RootsOk(l)
  {
  }

  lemma {:induction false} OrderBound(l: Layout, h: Pfn)
    requires Tiles(l) && h in l.blocks
    ensures l.blocks[h].order < BUDDY_ORDERS && Aligned(h, l.blocks[h].order)
  {
  }

  /** Taking a free block off its list. */
  lemma {:induction false} TakeGood(l: Layout, frames: map<Pfn, Frame>, queues: seq<seq<Pfn>>, h: Pfn, k: nat,
                                    kind: Kind)
    requires Good(l, frames, queues) && FreeAt(l, h, k) && !kind.Free?
    ensures k < |queues| && h in frames
    ensures Good(WithKind(l, h, kind), frames[h := frames[h].(onFreelist := false)], Delist(queues, k, h))
  {
    TakeIndex(l, frames, queues, h, k);
    hide Tiles, FramesOk, QueuesOk;
    KindTiles(l, h, kind);
    KindFrames(l, frames, h, kind);
    DelistOk(l, WithKind(l, h, kind), queues, k, h);
  }

  lemma {:induction false} TakeIndex(l: Layout, frames: map<Pfn, Frame>, queues: seq<seq<Pfn>>, h: Pfn, k: nat)
    requires Good(l, frames, queues) && h in l.blocks && l.blocks[h].order == k
    ensures |queues| == BUDDY_ORDERS && k < BUDDY_ORDERS && h in frames && frames[h].order == k
    ensures frames[h].onFreelist <==> l.blocks[h].kind.Free?
    ensures h in l.head && l.head[h] == h && frames[h].maxOrder == if h in l.roots then l.roots[h] else 0
  {
    assert In(h, h, k);
  }

  /** Putting a block on its list. */
  lemma {:induction false} PutGood(l: Layout, frames: map<Pfn, Frame>, queues: seq<seq<Pfn>>, h: Pfn, k: nat)
    requires Good(l, frames, queues) && h in l.blocks && l.blocks[h].order == k && !l.blocks[h].kind.Free?
    ensures k < |queues| && h in frames
    ensures Good(WithKind(l, h, Free), frames[h := frames[h].(onFreelist := true)], Enlist(queues, k, h))
  {
    TakeIndex(l, frames, queues, h, k);
    hide Tiles, FramesOk, QueuesOk;
    KindTiles(l, h, Free);
    KindFrames(l, frames, h, Free);
    EnlistOk(l, WithKind(l, h, Free), queues, k, h);
  }

  /** Merging a block being freed with the free block after it. The other's mark
      stays behind, now inside a block. */
  lemma {:induction false} MergeGood(l: Layout, frames: map<Pfn, Frame>, queues: seq<seq<Pfn>>, h: Pfn, k: nat, b: Pfn)
    requires Good(l, frames, queues) && Mergeable(l, h, k, b) && l.blocks[h].kind.Freeing? && l.blocks[b].kind.Free?
    ensures k < |queues| && h in frames
    ensures Good(MergeAt(l, h, k, b), frames[h := frames[h].(order := k + 1)], Delist(queues, k, b))
    ensures FreePages(MergeAt(l, h, k, b)) == FreePages(l) && WiredPages(MergeAt(l, h, k, b)) == WiredPages(l)
  {
    TakeIndex(l, frames, queues, h, k);
    hide Tiles, FramesOk, QueuesOk, Aligned, FreePages, WiredPages, MergeAt;
    TilesParts(l);
    MergeTiles(l, h, k, b);
    MergeFrames(l, frames, h, k, b);
    MergeFree(l, h, k, b);
    MergeQueues(l, queues, h, k, b);
  }

  lemma {:induction false} MergeQueues(l: Layout, queues: seq<seq<Pfn>>, h: Pfn, k: nat, b: Pfn)
    requires QueuesOk(l, queues) && h in l.blocks && l.blocks[h] == Block(k, Freeing) && FreeAt(l, b, k)
    requires k < BUDDY_ORDERS
    ensures QueuesOk(MergeAt(l, h, k, b), Delist(queues, k, b))
  {
    var l1 := l.(blocks := l.blocks - {b});
    DelistOk(l, l1, queues, k, b);
    var q1 := Delist(queues, k, b);
    var l' := MergeAt(l, h, k, b);
    forall j, g | 0 <= j < BUDDY_ORDERS ensures g in q1[j] <==> g in l'.blocks && l'.blocks[g] == Block(j, Free) {
      assert g in q1[j] <==> g in l1.blocks && l1.blocks[g] == Block(j, Free);
    }
  }
}
