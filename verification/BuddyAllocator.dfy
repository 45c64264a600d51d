/**
  The buddy allocator of the page-frame database: the recorded fields of each frame
  and sixteen free lists, changed in place. The ghost layout says which blocks they
  stand for.
 */
module BuddyAllocator {
  import opened Buddy
  import opened BuddyRegions
  import opened Numbers
  import opened Options

  // --------------------------------------------------------- what steps leave alone

  /** Same regions, and every block in use as before. */
  ghost predicate Keeps(l: Layout, l': Layout) {
    && l'.head.Keys == l.head.Keys && l'.roots == l.roots
    && (forall g :: g in l.blocks && !IsFree(l.blocks[g].kind) ==> g in l'.blocks && l'.blocks[g] == l.blocks[g])
  }

  /** The blocks in use. */
  ghost function UsedBlocks(l: Layout): map<Pfn, Block> {
    map g | g in l.blocks && !IsFree(l.blocks[g].kind) :: l.blocks[g]
  }

  ghost predicate AtRest(l: Layout) {
    forall h :: h in l.blocks ==> !l.blocks[h].kind.Freeing?
  }

  /** At rest but for a block being freed. */
  ghost predicate AtRestBut(l: Layout, h: Pfn) {
    forall g :: g in l.blocks && g != h ==> !l.blocks[g].kind.Freeing?
  }

  lemma {:induction false} KeepsThen(l: Layout, l1: Layout, l2: Layout)
    requires Keeps(l, l1) && Keeps(l1, l2)
    ensures Keeps(l, l2)
  {
  }

  lemma {:induction false} SplitKeeps(l: Layout, h: Pfn, k: nat, mid: Pfn)
    requires h in l.blocks && IsFree(l.blocks[h].kind) && mid !in l.blocks
    ensures Keeps(l, SplitAt(l, h, k, mid)) && (AtRest(l) ==> AtRest(SplitAt(l, h, k, mid)))
    ensures UsedBlocks(SplitAt(l, h, k, mid)) == UsedBlocks(l)
  {
  }

  lemma {:induction false} MergeKeeps(l: Layout, h: Pfn, k: nat, b: Pfn)
    requires h in l.blocks && b in l.blocks && IsFree(l.blocks[h].kind) && IsFree(l.blocks[b].kind) && AtRestBut(l, h)
    ensures Keeps(l, MergeAt(l, h, k, b)) && AtRestBut(MergeAt(l, h, k, b), h)
    ensures UsedBlocks(MergeAt(l, h, k, b)) == UsedBlocks(l)
  {
  }

  lemma {:induction false} KindKeeps(l: Layout, h: Pfn, kind: Kind)
    requires h in l.blocks && IsFree(l.blocks[h].kind)
    ensures Keeps(l, WithKind(l, h, kind))
    ensures AtRestBut(l, h) && !kind.Freeing? ==> AtRest(WithKind(l, h, kind))
    ensures AtRest(l) ==> AtRestBut(WithKind(l, h, kind), h)
    ensures UsedBlocks(WithKind(l, h, kind)) ==
            if IsFree(kind) then UsedBlocks(l) else UsedBlocks(l)[h := l.blocks[h].(kind := kind)]
  {
  }

  lemma {:induction false} KindSet(l: Layout, h: Pfn, kind: Kind)
    requires Covers(l) && Exclusive(l) && h in l.blocks
    ensures var n, l' := Pow2(l.blocks[h].order), WithKind(l, h, kind);
            && FreePages(l') == (if IsFree(kind) then Joined(FreePages(l), h, n) else Dropped(FreePages(l), h, n))
            && (IsFree(l.blocks[h].kind) ==> Extent(h, n) <= FreePages(l))
  {
    ExtentIs(l, h);
    hide Covers, Exclusive, Extent, Pow2;
    var e, l' := Extent(h, Pow2(l.blocks[h].order)), WithKind(l, h, kind);
    forall p ensures p in FreePages(l') <==> if p in e then IsFree(kind) else p in FreePages(l) {
      assert p in e <==> p in l.head && l.head[p] == h;
    }
  }

  lemma {:induction false} FirstIsFree(l: Layout, frames: map<Pfn, Frame>, queues: seq<seq<Pfn>>, k: nat)
    requires Good(l, frames, queues) && k < BUDDY_ORDERS && queues[k] != []
    ensures FreeAt(l, queues[k][0], k) && queues[k][0] in frames && frames[queues[k][0]].order == k
    ensures 0 < k ==> Halves(l, queues[k][0], k - 1, queues[k][0] + Pow2(k - 1))
  {
    assert queues[k][0] in queues[k];
  }

  lemma {:induction false} SplitFirstGood(l: Layout, frames: map<Pfn, Frame>, queues: seq<seq<Pfn>>, order: nat,
                                          page: Pfn, buddy: Pfn)
    requires |queues| == BUDDY_ORDERS && Good(l, frames, queues) && AtRest(l)
    requires 0 < order < BUDDY_ORDERS && queues[order] != [] && page == queues[order][0]
    requires buddy == page + Pow2(order - 1)
    ensures page in l.blocks && page in frames && buddy in frames && frames[page].order == order
    ensures frames[buddy].order == order - 1
    ensures buddy != page
    ensures var l' := SplitAt(l, page, order - 1, buddy);
            && Good(l', SplitFrames(frames, page, order - 1, buddy), SplitLists(queues, page, order - 1, page, buddy))
            && FreePages(l') == FreePages(l) && WiredPages(l') == WiredPages(l) && l'.head.Keys == l.head.Keys
            && Keeps(l, l') && AtRest(l') && UsedBlocks(l') == UsedBlocks(l)
  {
    hide AtRest, Keeps, FreePages, WiredPages, Tiles, FramesOk, QueuesOk, Aligned, Natural, UsedBlocks;
    FirstIsFree(l, frames, queues, order);
    SplitGood(l, frames, queues, page, order - 1, buddy);
    MidFrame(l, frames, page, order - 1, buddy);
    MidInside(l, page, order - 1, buddy);
    SplitKeeps(l, page, order - 1, buddy);
  }

  lemma {:induction false} SplitFirstStale(l: Layout, frames: map<Pfn, Frame>, queues: seq<seq<Pfn>>, order: nat,
                                           page: Pfn, buddy: Pfn)
    requires Good(l, frames, queues) && page in l.blocks && page in frames && buddy in frames
    requires 0 < order < BUDDY_ORDERS && queues[order] != [] && page == queues[order][0]
    requires buddy == page + Pow2(order - 1)
    ensures NoStale(l, frames) ==>
              NoStale(SplitAt(l, page, order - 1, buddy), SplitFrames(frames, page, order - 1, buddy))
  {
    hide NoStale, SplitAt, SplitFrames, Aligned, Natural;
    FirstIsFree(l, frames, queues, order);
    MidInside(l, page, order - 1, buddy);
    GoodTiles(l, frames, queues);
    OwnHead(l, page);
    if NoStale(l, frames) {
      StaleSplit(l, frames, page, order - 1, buddy);
    }
  }

  /** A block leaves the free lists. */
  lemma {:induction false} TakeOut(l: Layout, frames: map<Pfn, Frame>, queues: seq<seq<Pfn>>, h: Pfn, k: nat,
                                   kind: Kind)
    requires Good(l, frames, queues) && AtRest(l) && FreeAt(l, h, k) && !IsFree(kind)
    ensures k < |queues| && h in frames
    ensures var l' := WithKind(l, h, kind);
            && Good(l', frames[h := frames[h].(onFreelist := false)], Delist(queues, k, h))
            && Keeps(l, l') && AtRest(l') && Extent(h, Pow2(k)) <= FreePages(l)
            && FreePages(l') == Dropped(FreePages(l), h, Pow2(k)) && |FreePages(l')| == |FreePages(l)| - Pow2(k)
            && |WiredPages(l')| == |WiredPages(l)| + (if kind.Wired? then Pow2(k) else 0)
            && UsedBlocks(l') == UsedBlocks(l)[h := Block(k, kind)]
  {
    hide UsedBlocks, Good, AtRest, Keeps, FreePages, WiredPages, Extent, Joined, Dropped, Pow2;
    TakeGood(l, frames, queues, h, k, kind);
    GoodTiles(l, frames, queues);
    RestKeeps(l, h, kind);
    KindSet(l, h, kind);
    TakenPages(l, h, kind);
  }

  lemma {:induction false} GoodTiles(l: Layout, frames: map<Pfn, Frame>, queues: seq<seq<Pfn>>)
    requires Good(l, frames, queues)
    ensures Tiles(l) && Covers(l) && Exclusive(l)
  {
  }

  lemma {:induction false} RestKeeps(l: Layout, h: Pfn, kind: Kind)
    requires AtRest(l) && h in l.blocks && IsFree(l.blocks[h].kind) && !kind.Freeing?
    ensures Keeps(l, WithKind(l, h, kind)) && AtRest(WithKind(l, h, kind))
    ensures !IsFree(kind) ==> UsedBlocks(WithKind(l, h, kind)) == UsedBlocks(l)[h := l.blocks[h].(kind := kind)]
  {
  }

  lemma {:induction false} TakenPages(l: Layout, h: Pfn, kind: Kind)
    requires Covers(l) && Exclusive(l) && h in l.blocks && IsFree(l.blocks[h].kind) && !IsFree(kind)
    ensures |FreePages(WithKind(l, h, kind))| == |FreePages(l)| - Pow2(l.blocks[h].order)
    ensures |WiredPages(WithKind(l, h, kind))| == |WiredPages(l)| + if kind.Wired? then Pow2(l.blocks[h].order) else 0
  {
    hide Covers, Exclusive, FreePages, WiredPages, Pow2;
    KindPages(l, h, kind);
  }

  /** With the lists from `desired` on empty, no free block is large enough. */
  lemma {:induction false} NoneLarger(l: Layout, frames: map<Pfn, Frame>, queues: seq<seq<Pfn>>, desired: nat)
    requires Good(l, frames, queues) && forall k :: desired <= k < BUDDY_ORDERS ==> queues[k] == []
    ensures forall h, k :: desired <= k ==> !FreeAt(l, h, k)
  {
    hide Aligned;
    forall h, k | desired <= k ensures !FreeAt(l, h, k) {
      assert k < BUDDY_ORDERS ==> h !in queues[k];
    }
  }

  // ----------------------------------------------------------------------- freeing

  /** The frame whose number differs in bit `k`. */
  function BuddyOf(p: Pfn, k: nat): Pfn {
    if (p / Pow2(k)) % 2 == 0 then p + Pow2(k) else p - Pow2(k)
  }

  lemma {:induction false} BuddyAbove(p: Pfn, k: nat)
    requires Aligned(p, k + 1)
    ensures BuddyOf(p, k) == p + Pow2(k)
  {
    var m, q := Pow2(k), p / Pow2(k + 1);
    assert p == (2 * m) * q;
    assert p == m * (2 * q);
    DivUnique(p, m, 2 * q, 0);
  }

  /** A block with a larger first block to grow back to: where its buddy is, and what
      the buddy's fields mean. */
  lemma {:induction false} FreedBuddy(l: Layout, frames: map<Pfn, Frame>, queues: seq<seq<Pfn>>, h: Pfn, k: nat)
    requires Good(l, frames, queues) && h in l.blocks && l.blocks[h].order == k && frames[h].order < frames[h].maxOrder
    ensures var b := BuddyOf(h, k);
            && b == h + Pow2(k) && b != h && b in l.blocks && b in frames && frames[b].order == l.blocks[b].order
            && (frames[b].onFreelist <==> l.blocks[b].kind.Free?)
            && Aligned(h, k + 1) && k + 1 < BUDDY_ORDERS
  {
    hide Good, Tiles, Aligned, Pow2, BuddyOf;
    TakeIndex(l, frames, queues, h, k);
    GoodTiles(l, frames, queues);
    GrowsInside(l, h, k);
    BuddyAbove(h, k);
    TakeIndex(l, frames, queues, h + Pow2(k), l.blocks[h + Pow2(k)].order);
  }

  lemma {:induction false} GrowsInside(l: Layout, h: Pfn, k: nat)
    requires Tiles(l) && h in l.blocks && l.blocks[h].order == k && h in l.roots && k < l.roots[h]
    ensures h + Pow2(k) in l.blocks && Aligned(h, k + 1) && k + 1 < BUDDY_ORDERS
  {
    hide Natural;
    TilesParts(l);
    var m := l.roots[h];
    AlignedLess(h, k + 1, m);
    Pow2Monotone(k + 1, m);
    assert In(h + Pow2(k), h, m);
    hide Aligned, Covers, Exclusive, Shapes;
    BuddyIsHead(l, h);
  }

  lemma {:induction false} HalfPow(k: nat)
    requires 0 < k
    ensures Pow2(k) / 2 == Pow2(k - 1)
  {
  }

  /** A block in use starts on its way to the free lists. */
  lemma {:induction false} FreeStart(l: Layout, frames: map<Pfn, Frame>, queues: seq<seq<Pfn>>, h: Pfn)
    requires Good(l, frames, queues) && AtRest(l) && h in l.blocks && l.blocks[h].kind.Allocated?
    ensures h in frames && frames[h].order == l.blocks[h].order
    ensures var l', n := WithKind(l, h, Freeing), Pow2(l.blocks[h].order);
            && Good(l', frames, queues) && AtRestBut(l', h) && l'.head == l.head
            && FreePages(l') == Joined(FreePages(l), h, n) && Extent(h, n) !! FreePages(l)
            && |FreePages(l')| == |FreePages(l)| + n && |WiredPages(l')| == |WiredPages(l)|
            && UsedBlocks(l') == NotUsed(UsedBlocks(l), h)
  {
    hide FreePages, WiredPages, Extent, Joined, Dropped, Pow2, Good, UsedBlocks, NotUsed, AtRest, AtRestBut;
    TakeIndex(l, frames, queues, h, l.blocks[h].order);
    GoodTiles(l, frames, queues);
    FreeingGood(l, frames, queues, h);
    FreeingUsed(l, h);
    KindSet(l, h, Freeing);
    InUse(l, h);
    FreedPages(l, h);
  }

  ghost function NotUsed(used: map<Pfn, Block>, h: Pfn): map<Pfn, Block> {
    used - {h}
  }

  lemma {:induction false} FreeingGood(l: Layout, frames: map<Pfn, Frame>, queues: seq<seq<Pfn>>, h: Pfn)
    requires Good(l, frames, queues) && AtRest(l) && h in l.blocks && l.blocks[h].kind.Allocated? && h in frames
    requires !frames[h].onFreelist
    ensures Good(WithKind(l, h, Freeing), frames, queues) && AtRestBut(WithKind(l, h, Freeing), h)
  {
    hide Tiles, FramesOk;
    KindTiles(l, h, Freeing);
    KindFrames(l, frames, h, Freeing);
    assert frames[h := frames[h].(onFreelist := false)] == frames;
  }

  lemma {:induction false} FreeingUsed(l: Layout, h: Pfn)
    requires h in l.blocks && l.blocks[h].kind.Allocated?
    ensures UsedBlocks(WithKind(l, h, Freeing)) == NotUsed(UsedBlocks(l), h)
  {
  }

  lemma {:induction false} InUse(l: Layout, h: Pfn)
    requires Covers(l) && Exclusive(l) && h in l.blocks && !IsFree(l.blocks[h].kind)
    ensures Extent(h, Pow2(l.blocks[h].order)) !! FreePages(l)
  {
    ExtentIs(l, h);
  }

  lemma {:induction false} FreedPages(l: Layout, h: Pfn)
    requires Covers(l) && Exclusive(l) && h in l.blocks && l.blocks[h].kind.Allocated?
    ensures |FreePages(WithKind(l, h, Freeing))| == |FreePages(l)| + Pow2(l.blocks[h].order)
    ensures |WiredPages(WithKind(l, h, Freeing))| == |WiredPages(l)|
  {
    hide Covers, Exclusive, FreePages, WiredPages, Pow2;
    KindPages(l, h, Freeing);
  }

  lemma {:induction false} MergeFacts(l: Layout, h: Pfn, k: nat, b: Pfn)
    requires h in l.blocks
    ensures var l' := MergeAt(l, h, k, b);
            h in l'.blocks && l'.blocks[h] == Block(k + 1, l.blocks[h].kind) && l'.head.Keys == l.head.Keys
  {
  }

  /** A merge leaves the other block's mark inside the merged one. */
  lemma {:induction false} MergeStale(l: Layout, frames: map<Pfn, Frame>, h: Pfn, k: nat, b: Pfn)
    requires Exclusive(l) && h in l.blocks && b in l.blocks && h != b && b in frames && h in frames
    requires frames[b].onFreelist
    ensures !NoStale(MergeAt(l, h, k, b), frames[h := frames[h].(order := k + 1)])
  {
    OwnHead(l, b);
    assert MergeAt(l, h, k, b).head[b] == h;
  }

  /** One merge of a block being freed, seen as a whole. */
  lemma {:induction false} MergeStep(l1: Layout, l: Layout, frames: map<Pfn, Frame>, queues: seq<seq<Pfn>>, h: Pfn,
                                     k: nat, b: Pfn)
    requires Good(l, frames, queues) && AtRestBut(l, h) && Mergeable(l, h, k, b) && l.blocks[h].kind.Freeing?
    requires l.blocks[b].kind.Free?
    requires Keeps(l1, l) && b in frames && frames[b].onFreelist && h != b
    ensures k < |queues| && h in frames
    ensures var l', frames' := MergeAt(l, h, k, b), frames[h := frames[h].(order := k + 1)];
            && Good(l', frames', Delist(queues, k, b)) && AtRestBut(l', h) && Keeps(l1, l') && !NoStale(l', frames')
            && FreePages(l') == FreePages(l) && WiredPages(l') == WiredPages(l) && l'.head.Keys == l.head.Keys
            && h in l'.blocks && l'.blocks[h] == Block(k + 1, Freeing) && UsedBlocks(l') == UsedBlocks(l)
  {
    hide UsedBlocks, Good, AtRestBut, Keeps, FreePages, WiredPages, MergeAt, Pow2, Aligned, NoStale;
    GoodTiles(l, frames, queues);
    MergeGood(l, frames, queues, h, k, b);
    MergeKeeps(l, h, k, b);
    MergeFacts(l, h, k, b);
    MergeStale(l, frames, h, k, b);
    KeepsThen(l1, l, MergeAt(l, h, k, b));
  }

  /** Block `h` has grown from order `k0` to `k` by taking in the free blocks after it, and
      nothing else has changed. */
  ghost predicate Grown(l0: Layout, l: Layout, h: Pfn, k0: nat, k: nat) {
    && k0 <= k && (forall j: nat :: k0 <= j < k ==> FreeAt(l0, BuddyOf(h, j), j))
    && (forall g :: g in l.blocks && g != h ==> g in l0.blocks && l0.blocks[g] == l.blocks[g])
    && (forall g :: g in l0.blocks && (g < h || h + Pow2(k) <= g) ==> g in l.blocks && l.blocks[g] == l0.blocks[g])
  }

  lemma {:induction false} GrownStart(l: Layout, h: Pfn, k: nat)
    ensures Grown(l, l, h, k, k)
  {
  }

  lemma {:induction false} GrownMore(l0: Layout, l: Layout, h: Pfn, k0: nat, k: nat, b: Pfn)
    requires Grown(l0, l, h, k0, k) && Mergeable(l, h, k, b) && l.blocks[b].kind.Free? && b == BuddyOf(h, k) && b != h
    ensures Grown(l0, MergeAt(l, h, k, b), h, k0, k + 1)
  {
    hide BuddyOf, Aligned;
    assert Pow2(k + 1) == Pow2(k) + Pow2(k);
    assert FreeAt(l0, b, k);
  }

  /** What is not marked free at an order is not a free block of that order, and was not
      before the block grew. */
  lemma {:induction false} GrownStops(l0: Layout, l: Layout, frames: map<Pfn, Frame>, queues: seq<seq<Pfn>>, h: Pfn,
                                      k0: nat, k: nat, b: Pfn)
    requires Grown(l0, l, h, k0, k) && Good(l, frames, queues) && h in l.blocks && b == h + Pow2(k)
    requires b in frames && !(frames[b].order == k && frames[b].onFreelist)
    ensures !FreeAt(l, b, k) && !FreeAt(l0, b, k)
  {
    hide Tiles, QueuesOk, InnerFrames, Pow2, BuddyOf;
  }

  lemma {:induction false} GrownEnd(l0: Layout, l1: Layout, l: Layout, h: Pfn, k0: nat, k: nat, b: Pfn)
    requires h in l0.blocks && l0.blocks[h].kind.Allocated? && l1 == WithKind(l0, h, Freeing)
    requires Grown(l1, l, h, k0, k) && h in l.blocks && b == BuddyOf(h, k)
    ensures k0 <= k && forall j: nat :: k0 <= j < k ==> FreeAt(l0, BuddyOf(h, j), j)
    ensures FreeAt(l1, b, k) <==> FreeAt(l0, b, k)
    ensures FreeAt(WithKind(l, h, Free), b, k) <==> FreeAt(l, b, k)
  {
    BuddyElse(h, k);
    hide BuddyOf;
    assert forall g, j :: FreeAt(l1, g, j) <==> FreeAt(l0, g, j);
  }

  lemma {:induction false} BuddyElse(p: Pfn, k: nat)
    ensures BuddyOf(p, k) != p
  {
  }

  lemma {:induction false} SameStale(l: Layout, frames: map<Pfn, Frame>, h: Pfn, kind: Kind)
    requires h in l.blocks
    ensures NoStale(WithKind(l, h, kind), frames) <==> NoStale(l, frames)
  {
  }

  lemma {:induction false} StalePut(l: Layout, frames: map<Pfn, Frame>, h: Pfn)
    requires h in l.blocks && h in l.head && l.head[h] == h && h in frames
    ensures NoStale(WithKind(l, h, Free), frames[h := frames[h].(onFreelist := true)]) <==> NoStale(l, frames)
  {
    var l', frames' := WithKind(l, h, Free), frames[h := frames[h].(onFreelist := true)];
    assert forall p :: p in l.head && l.head[p] != p ==>
      (p in frames' <==> p in frames) && (p in frames ==> frames'[p] == frames[p]);
  }

  /** A block on its way is put on its list. */
  lemma {:induction false} FreeEnd(l: Layout, frames: map<Pfn, Frame>, queues: seq<seq<Pfn>>, h: Pfn)
    requires Good(l, frames, queues) && AtRestBut(l, h) && h in l.blocks && l.blocks[h].kind.Freeing?
    ensures h in frames && frames[h].order == l.blocks[h].order && l.blocks[h].order < |queues|
    ensures var l' := WithKind(l, h, Free);
            && Good(l', frames[h := frames[h].(onFreelist := true)], Enlist(queues, l.blocks[h].order, h)) && AtRest(l')
            && Keeps(l, l') && FreePages(l') == FreePages(l) && WiredPages(l') == WiredPages(l) && l'.head == l.head
            && UsedBlocks(l') == UsedBlocks(l)
  {
    TakeIndex(l, frames, queues, h, l.blocks[h].order);
    hide UsedBlocks, Good, AtRest, AtRestBut, Keeps;
    PutGood(l, frames, queues, h, l.blocks[h].order);
    KindKeeps(l, h, Free);
    SameFree(l, h);
  }

  lemma {:induction false} SameFree(l: Layout, h: Pfn)
    requires h in l.blocks && l.blocks[h].kind.Freeing?
    ensures FreePages(WithKind(l, h, Free)) == FreePages(l) && WiredPages(WithKind(l, h, Free)) == WiredPages(l)
  {
    var l' := WithKind(l, h, Free);
    forall p ensures p in FreePages(l') <==> p in FreePages(l)
             ensures p in WiredPages(l') <==> p in WiredPages(l) {
    }
  }

  /** The test made before the first merge of block `h`. */
  predicate MergesAt(frames: map<Pfn, Frame>, h: Pfn) {
    && h in frames && frames[h].order < frames[h].maxOrder
    && var b := BuddyOf(h, frames[h].order);
       b in frames && frames[b].order == frames[h].order && frames[b].onFreelist
  }

  /** Frame `b`, inside block `h`, is marked as on a free list. */
  ghost predicate MarkLeft(l: Layout, frames: map<Pfn, Frame>, h: Pfn, b: Pfn) {
    b in l.head && l.head[b] == h && b != h && b in frames && frames[b].onFreelist
  }

  lemma {:induction false} MarkStays(l: Layout, frames: map<Pfn, Frame>, queues: seq<seq<Pfn>>, h: Pfn, k: nat,
                                     b: Pfn, b0: Pfn)
    requires Good(l, frames, queues) && h in l.blocks && b in l.blocks && h in frames && b in frames
    requires frames[b].onFreelist && h != b
    requires b0 == b || MarkLeft(l, frames, h, b0)
    ensures MarkLeft(MergeAt(l, h, k, b), frames[h := frames[h].(order := k + 1)], h, b0)
  {
    GoodTiles(l, frames, queues);
    OwnHead(l, b);
    hide Good, Tiles, Covers, Exclusive;
  }

  // -------------------------------------------------------------- the walk to the head

  /** The block that frame `p` is in is on a free list. */
  predicate InFree(l: Layout, p: Pfn) {
    p in l.head && l.head[p] in l.blocks && l.blocks[l.head[p]].kind.Free?
  }

  /** Where the first loop of `vmp_page_unfree` ends, started at a free frame `p`. */
  ghost function WalkBack(l: Layout, frames: map<Pfn, Frame>, queues: seq<seq<Pfn>>, p: Pfn): Pfn
    requires Good(l, frames, queues) && InFree(l, p)
    decreases p
  {
    WalkFacts(l, frames, queues, p);
    if frames[p].onFreelist then p else WalkBack(l, frames, queues, p - Pow2(frames[p].order))
  }

  lemma {:induction false} WalkFacts(l: Layout, frames: map<Pfn, Frame>, queues: seq<seq<Pfn>>, p: Pfn)
    requires Good(l, frames, queues) && InFree(l, p)
    ensures p in frames && (l.head[p] == p ==> frames[p].onFreelist)
    ensures l.head[p] != p ==>
              && 0 < Pow2(frames[p].order) <= p && InFree(l, p - Pow2(frames[p].order))
              && l.head[p - Pow2(frames[p].order)] == l.head[p]
  {
    hide Aligned, Natural;
    TilesParts(l);
    if l.head[p] != p {
      StepDown(l, frames, p);
    } else {
      TakeIndex(l, frames, queues, p, l.blocks[p].order);
    }
  }

  /** The walk finds the head of every free frame's block exactly when no frame inside a
      free block is marked. */
  lemma {:induction false} WalkExact(l: Layout, frames: map<Pfn, Frame>, queues: seq<seq<Pfn>>)
    requires Good(l, frames, queues)
    ensures (forall p :: InFree(l, p) ==> WalkBack(l, frames, queues, p) == l.head[p]) <==>
            (forall p :: InFree(l, p) && l.head[p] != p ==> p in frames && !frames[p].onFreelist)
  {
    hide Good;
    if forall p :: InFree(l, p) && l.head[p] != p ==> p in frames && !frames[p].onFreelist {
      forall p | InFree(l, p) ensures WalkBack(l, frames, queues, p) == l.head[p] {
        WalkFinds(l, frames, queues, p);
      }
    } else {
      var p :| InFree(l, p) && l.head[p] != p && !(p in frames && !frames[p].onFreelist);
      WalkFacts(l, frames, queues, p);
      assert WalkBack(l, frames, queues, p) == p;
    }
  }

  lemma {:induction false} WalkFinds(l: Layout, frames: map<Pfn, Frame>, queues: seq<seq<Pfn>>, p: Pfn)
    requires Good(l, frames, queues) && InFree(l, p)
    requires forall q :: InFree(l, q) && l.head[q] != q ==> q in frames && !frames[q].onFreelist
    ensures WalkBack(l, frames, queues, p) == l.head[p]
    decreases p
  {
    hide Good;
    WalkFacts(l, frames, queues, p);
    if l.head[p] != p {
      WalkFinds(l, frames, queues, p - Pow2(frames[p].order));
    }
  }

  /** The first free list from `desired` up that is not empty is that of order `k`. */
  predicate BestFit(queues: seq<seq<Pfn>>, desired: nat, k: nat) {
    desired <= k < |queues| && queues[k] != [] && forall j :: desired <= j < k ==> queues[j] == []
  }

  /** The last block of order `j` in a block of order `k`. */
  function TopOf(h: Pfn, k: nat, j: nat): int {
    h + Pow2(k) - Pow2(j)
  }

  lemma {:induction false} TopDown(h: Pfn, k: nat, j: nat)
    requires 0 < j
    ensures TopOf(h, k, j - 1) == TopOf(h, k, j) + Pow2(j - 1)
  {
  }

  class PageFrameDatabase {
    var pfndb: map<Pfn, Frame>
    var queues: seq<seq<Pfn>>
    var nfree: int
    var ntotal: int
    var npwired: int
    ghost var layout: Layout

    ghost predicate Counts()
      reads this
    {
      nfree == |FreePages(layout)| && ntotal == |layout.head.Keys| && npwired == |WiredPages(layout)|
    }

    ghost predicate Valid()
      reads this
    {
      |queues| == BUDDY_ORDERS && Good(layout, pfndb, queues) && AtRest(layout) && Counts()
    }

    constructor ()
      ensures Valid() && NoStale(layout, pfndb) && Coalesced(layout) && layout.head == map[] && pfndb == map[]
    {
      pfndb := map[];
      queues := seq(BUDDY_ORDERS, _ => []);
      nfree, ntotal, npwired := 0, 0, 0;
      layout := Layout(map[], map[], map[]);
    }

    /** Split the first block of free list `order`, as the allocator does. */
    method SplitFirst(order: nat)
      requires Valid() && 0 < order < BUDDY_ORDERS && queues[order] != []
      modifies this`pfndb, this`queues, this`layout
      ensures Valid() && Keeps(old(layout), layout) && FreePages(layout) == old(FreePages(layout))
      ensures queues[order - 1] != [] && UsedBlocks(layout) == old(UsedBlocks(layout))
      ensures old(NoStale(layout, pfndb)) ==> NoStale(layout, pfndb)
      ensures var (page, mid) := (old(queues[order][0]), old(queues[order][0]) + Pow2(order - 1));
              && queues[order - 1][0] == mid && page in old(layout).blocks
              && layout == SplitAt(old(layout), page, order - 1, mid)
    {
      hide UsedBlocks, Good, AtRest, Keeps, FreePages, WiredPages, SplitAt, Pow2, FreeAt, NoStale;
      var page := queues[order][0];
      FirstIsFree(layout, pfndb, queues, order);
      HalfPow(order);
      var buddy := page + Pow2(pfndb[page].order) / 2;
      SplitFirstGood(layout, pfndb, queues, order, page, buddy);
      SplitFirstStale(layout, pfndb, queues, order, page, buddy);
      assert pfndb[buddy].order == pfndb[page].order - 1;
      queues := Delist(queues, order, page);
      queues := Enlist(queues, order - 1, page);
      queues := Enlist(queues, order - 1, buddy);
      pfndb := pfndb[buddy := pfndb[buddy].(onFreelist := true)];
      pfndb := pfndb[page := pfndb[page].(order := pfndb[page].order - 1)];
      assert pfndb == SplitFrames(old(pfndb), page, order - 1, buddy);
      layout := SplitAt(layout, page, order - 1, buddy);
    }

    /** The buddy part of `vmp_pages_alloc_locked`. Nothing is returned exactly when no
        free block is large enough, where the kernel stops. */
    method AllocPages(desired: nat) returns (r: Option<Pfn>)
      requires Valid() && desired < BUDDY_ORDERS
      modifies this
      ensures Valid()
      ensures r.None? ==> unchanged(this) && forall h, k :: desired <= k ==> !FreeAt(layout, h, k)
      ensures r.Some? ==>
                && Keeps(old(layout), layout) && r.value in layout.blocks
                && layout.blocks[r.value] == Block(desired, Allocated)
                && Extent(r.value, Pow2(desired)) <= old(FreePages(layout))
                && FreePages(layout) == Dropped(old(FreePages(layout)), r.value, Pow2(desired))
                && nfree == old(nfree) - Pow2(desired)
                && UsedBlocks(layout) == old(UsedBlocks(layout))[r.value := Block(desired, Allocated)]
                && exists k: nat :: BestFit(old(queues), desired, k) && r.value == TopOf(old(queues)[k][0], k, desired)
      ensures ntotal == old(ntotal) && npwired == old(npwired)
      ensures old(NoStale(layout, pfndb)) ==> NoStale(layout, pfndb)
      ensures old(Coalesced(layout)) ==> Coalesced(layout)
    {
      hide UsedBlocks, Good, AtRest, Keeps, FreePages, WiredPages, SplitAt, Pow2, FreeAt, Extent, Joined, Dropped,
        NoStale, Coalesced, Down;
      var order := desired;
      while queues[order] == []
        invariant desired <= order < BUDDY_ORDERS
        invariant forall k :: desired <= k < order ==> queues[k] == []
        decreases BUDDY_ORDERS - order
      {
        order := order + 1;
        if order == BUDDY_ORDERS {
          NoneLarger(layout, pfndb, queues, desired);
          return None;
        }
      }
      KeepsRefl(layout);
      ghost var h, best := queues[order][0], order;
      assert BestFit(queues, desired, best);
      AllocStart(layout, pfndb, queues, order, desired);
      while order != desired
        invariant desired <= order < BUDDY_ORDERS && Valid() && queues[order] != []
        invariant Down(old(layout), layout, h, queues[order][0], order, queues[order][0], desired)
        invariant order <= best && queues[order][0] == TopOf(h, best, order)
        invariant old(NoStale(layout, pfndb)) ==> NoStale(layout, pfndb)
        invariant Keeps(old(layout), layout) && FreePages(layout) == old(FreePages(layout)) && nfree == old(nfree)
        invariant UsedBlocks(layout) == old(UsedBlocks(layout)) && ntotal == old(ntotal) && npwired == old(npwired)
        decreases order
      {
        ghost var l1 := layout;
        TopDown(h, best, order);
        AllocDown(old(layout), layout, old(pfndb), old(queues), pfndb, queues, h, order, desired);
        SplitFirst(order);
        KeepsThen(old(layout), l1, layout);
        order := order - 1;
      }
      var page := queues[order][0];
      FirstIsFree(layout, pfndb, queues, order);
      TakeOut(layout, pfndb, queues, page, order, Allocated);
      FreeIsBlock(layout, page, order);
      KeepsThen(old(layout), layout, WithKind(layout, page, Allocated));
      AllocEnd(old(layout), layout, old(pfndb), old(queues), pfndb, queues, h, page, order);
      queues := Delist(queues, order, page);
      pfndb := pfndb[page := pfndb[page].(onFreelist := false)];
      nfree := nfree - Pow2(desired);
      layout := WithKind(layout, page, Allocated);
      r := Some(page);
    }

    /** The first loop of `vmp_page_unfree`: step back to the head of the page's block. */
    method FindHead(page: Pfn) returns (initial: Pfn)
      requires Valid() && NoStale(layout, pfndb)
      requires page in layout.head && layout.head[page] in layout.blocks && layout.blocks[layout.head[page]].kind.Free?
      ensures initial == layout.head[page]
    {
      hide Good, AtRest, Pow2, NoStale;
      initial := page;
      ghost var h := layout.head[page];
      UnfreeFacts(layout, pfndb, queues, initial);
      while !pfndb[initial].onFreelist
        invariant initial in layout.head && layout.head[initial] == h && initial in pfndb && h <= initial
        invariant pfndb[initial].onFreelist ==> initial == h
        decreases initial
      {
        UnfreeFacts(layout, pfndb, queues, initial);
        initial := initial - Pow2(pfndb[initial].order);
        UnfreeFacts(layout, pfndb, queues, initial);
      }
    }

    /** One round of the second loop of `vmp_page_unfree`: split block `initial` and go
        on with the half that holds the page. The kernel's assertions are asserted. */
    method SplitToward(initial: Pfn, page: Pfn, order: nat, ghost l0: Layout, ghost h: Pfn) returns (next: Pfn)
      requires Valid() && NoStale(layout, pfndb) && Tiles(l0)
      requires initial in pfndb && order < pfndb[initial].order
      requires Down(l0, layout, h, initial, pfndb[initial].order, page, order)
      modifies this`pfndb, this`queues, this`layout
      ensures Valid() && NoStale(layout, pfndb) && Keeps(old(layout), layout) && next in pfndb
      ensures pfndb[next].order == old(pfndb[initial].order) - 1
      ensures Down(l0, layout, h, next, pfndb[next].order, page, order)
    {
      hide Good, AtRest, Keeps, FreePages, WiredPages, SplitAt, Pow2, FreeAt, Down, NoStale, Tiles;
      var o := pfndb[initial].order;
      var second := initial + Pow2(o - 1);
      UnfreeSplit(l0, layout, pfndb, queues, h, initial, o - 1, second, page, order);
      var newOrder := pfndb[second].order;
      assert newOrder == pfndb[initial].order - 1;
      assert pfndb[initial].onFreelist;
      assert !pfndb[second].onFreelist;
      pfndb := pfndb[second := pfndb[second].(onFreelist := true)];
      queues := Enlist(queues, newOrder, second);
      queues := Delist(queues, pfndb[initial].order, initial);
      pfndb := pfndb[initial := pfndb[initial].(order := newOrder)];
      queues := Enlist(queues, newOrder, initial);
      assert pfndb == SplitFrames(old(pfndb), initial, o - 1, second);
      assert queues == SplitLists(old(queues), initial, o - 1, second, initial);
      layout := SplitAt(layout, initial, o - 1, second);
      next := if second <= page then second else initial;
    }

    /** The second loop of `vmp_page_unfree`: split the block down to the page. */
    method SplitDown(h: Pfn, page: Pfn, order: nat) returns (initial: Pfn)
      requires Valid() && NoStale(layout, pfndb) && Tiles(layout) && h in pfndb && order <= pfndb[h].order
      requires Down(layout, layout, h, h, pfndb[h].order, page, order)
      modifies this`pfndb, this`queues, this`layout
      ensures Valid() && NoStale(layout, pfndb) && Keeps(old(layout), layout) && initial in pfndb
      ensures Down(old(layout), layout, h, initial, order, page, order)
    {
      hide Good, AtRest, Keeps, FreePages, WiredPages, Pow2, FreeAt, Aligned, Down, NoStale, Tiles;
      ghost var l0 := layout;
      KeepsRefl(l0);
      initial := h;
      while pfndb[initial].order != order
        invariant Valid() && NoStale(layout, pfndb) && Keeps(l0, layout) && initial in pfndb
        invariant order <= pfndb[initial].order
        invariant Down(l0, layout, h, initial, pfndb[initial].order, page, order)
        decreases pfndb[initial].order
      {
        ghost var l1 := layout;
        initial := SplitToward(initial, page, order, l0, h);
        KeepsThen(l0, l1, layout);
      }
    }

    /** `vmp_page_unfree`: find the free block that holds the page, split it down to the
        page, and take that out. */
    method PageUnfree(page: Pfn, order: nat)
      requires Valid() && NoStale(layout, pfndb) && Aligned(page, order)
      requires page in layout.head && layout.head[page] in layout.blocks && layout.blocks[layout.head[page]].kind.Free?
      requires order <= layout.blocks[layout.head[page]].order
      modifies this
      ensures Valid() && NoStale(layout, pfndb) && Keeps(old(layout), layout)
      ensures page in layout.blocks && layout.blocks[page] == Block(order, Wired)
      ensures FreePages(layout) == Dropped(old(FreePages(layout)), page, Pow2(order))
      ensures old(Coalesced(layout)) ==> Coalesced(layout)
      ensures nfree == old(nfree) - Pow2(order) && npwired == old(npwired) + Pow2(order)
    {
      hide Good, AtRest, Keeps, FreePages, WiredPages, Pow2, FreeAt, Extent, Joined, Dropped, Aligned, Down, NoStale,
        Coalesced, Tiles;
      ghost var l0 := layout;
      var initial := FindHead(page);
      GoodTiles(l0, pfndb, queues);
      ghost var h := initial;
      TakeIndex(l0, pfndb, queues, h, l0.blocks[h].order);
      DownStart(l0, page, order);
      assert pfndb[initial].order >= order;
      initial := SplitDown(initial, page, order);
      UnfreeEnd(l0, layout, pfndb, queues, h, initial, page, order);
      assert initial == page;
      assert pfndb[initial].onFreelist;
      queues := Delist(queues, order, page);
      nfree := nfree - Pow2(order);
      npwired := npwired + Pow2(order);
      pfndb := pfndb[initial := pfndb[initial].(onFreelist := false)];
      layout := WithKind(layout, page, Wired);
    }

    /** `vmp_range_unfree` on a free range of an added region: it ends, trips no assertion
        and removes exactly that range, whatever was removed before. */
    method RangeUnfree(base: Pfn, limit: nat, ghost regionBase: nat, ghost regionLimit: nat)
      requires Valid() && NoStale(layout, pfndb) && Coalesced(layout) && Region(layout, regionBase, regionLimit)
      requires 0 < base && regionBase <= base <= limit <= regionLimit
      requires Extent(base, limit - base) <= FreePages(layout)
      modifies this
      ensures Valid() && NoStale(layout, pfndb) && Coalesced(layout) && Keeps(old(layout), layout)
      ensures FreePages(layout) == Dropped(old(FreePages(layout)), base, limit - base)
      ensures nfree == old(nfree) - (limit - base) && npwired == old(npwired) + (limit - base)
    {
      hide Good, AtRest, Keeps, FreePages, WiredPages, NoStale, Coalesced, Region, Pow2, BestOrder, Extent, Joined,
        Dropped, Aligned;
      var i := base;
      ghost var done: nat, free := 0, FreePages(layout);
      KeepsRefl(layout);
      ExtentNone(free, base);
      while i < limit
        invariant base <= i <= limit && Valid() && NoStale(layout, pfndb) && Coalesced(layout)
        invariant Keeps(old(layout), layout)
        invariant Region(layout, regionBase, regionLimit)
        invariant FreePages(layout) == Dropped(free, base, done) && i == base + done
        invariant nfree == old(nfree) - done && npwired == old(npwired) + done
        decreases limit - i
      {
        var order := OrderFor(i, limit);
        ghost var l1 := layout;
        RangeNext(layout, regionBase, regionLimit, free, base, done, order, limit);
        PageUnfree(i, order);
        KeepsThen(old(layout), l1, layout);
        KeepsRegion(l1, layout, regionBase, regionLimit);
        ExtentGrows(free, base, done, Pow2(order));
        i := i + Pow2(order);
        done := done + Pow2(order);
      }
    }

    /** The first pass of `vm_region_add`: each frame gets its order. */
    method PrepareFrames(base: Pfn, limit: nat)
      requires Valid() && NoStale(layout, pfndb)
      requires 0 < base <= limit && forall p :: base <= p < limit ==> p !in pfndb
      modifies this`pfndb
      ensures Valid() && NoStale(layout, pfndb) && Built(layout, pfndb, base, base, limit)
    {
      hide Good, AtRest, FreePages, WiredPages, NoStale, Pow2, BestOrder, Prepared;
      HeadsIn(layout, pfndb, queues);
      var i := base;
      while i < limit
        invariant base <= i <= limit && Valid() && NoStale(layout, pfndb)
        invariant forall p :: base <= p < i ==> Prepared(pfndb, p, limit)
        invariant forall p :: base <= p < limit ==> p !in layout.head
      {
        var order := OrderFor(i, limit);
        PrepareNext(layout, pfndb, queues, base, i, limit, order);
        pfndb := pfndb[i := Frame(order, 0, false)];
        i := i + 1;
      }
    }

    /** `vm_region_add`: the region's frames are divided into aligned blocks, and all of
        them are free. The database's memory starts out zero. */
    method RegionAdd(base: Pfn, limit: nat)
      requires Valid() && NoStale(layout, pfndb) && Coalesced(layout)
      requires 0 < base <= limit && forall p :: base <= p < limit ==> p !in pfndb
      modifies this
      ensures Valid() && NoStale(layout, pfndb) && Coalesced(layout) && Region(layout, base, limit)
      ensures RootsKept(old(layout), layout) && FreePages(layout) == Joined(old(FreePages(layout)), base, limit - base)
      ensures layout.head.Keys == Joined(old(layout.head.Keys), base, limit - base)
      ensures nfree == old(nfree) + (limit - base) && ntotal == old(ntotal) + (limit - base) && npwired == old(npwired)
    {
      hide Good, AtRest, FreePages, WiredPages, NoStale, Coalesced, Region, Pow2, AddRoot, RootsKept, New, Built,
        Extent, Joined, Dropped, Ready;
      ghost var l0, done: nat := layout, 0;
      PrepareFrames(base, limit);
      var i := base;
      RootsKeptSelf(l0);
      ExtentNone(FreePages(l0), base);
      ExtentNone(l0.head.Keys, base);
      while i < limit
        invariant base <= i <= limit && |queues| == BUDDY_ORDERS && Good(layout, pfndb, queues) && AtRest(layout)
        invariant NoStale(layout, pfndb) && Coalesced(layout) && Built(layout, pfndb, base, i, limit)
        invariant RootsKept(l0, layout)
        invariant FreePages(layout) == Joined(FreePages(l0), base, done) && i == base + done
        invariant layout.head.Keys == Joined(l0.head.Keys, base, done)
        invariant nfree == old(nfree) && ntotal == old(ntotal) && npwired == old(npwired)
        invariant |FreePages(layout)| == nfree + done && |layout.head.Keys| == ntotal + done
        invariant |WiredPages(layout)| == npwired
        decreases limit - i
      {
        NextRoot(layout, pfndb, base, i, limit);
        var order := pfndb[i].order;
        BuildNext(layout, pfndb, queues, base, i, limit, order);
        BuildSets(layout, pfndb, queues, FreePages(l0), l0.head.Keys, base, done, i, order);
        RootsKeptThen(l0, layout, AddRoot(layout, i, order));
        queues := Enlist(queues, order, i);
        pfndb := pfndb[i := pfndb[i].(onFreelist := true, maxOrder := order)];
        layout := AddRoot(layout, i, order);
        i := i + Pow2(order);
        done := done + Pow2(order);
      }
      BuildEnd(layout, pfndb, base, limit);
      nfree := nfree + (limit - base);
      ntotal := ntotal + (limit - base);
    }

    /** The loop of `page_free`: merge a block on its way with the blocks after it, as far as
        its first block reached and they are free. */
    method MergeUp(h: Pfn)
      requires |queues| == BUDDY_ORDERS && Good(layout, pfndb, queues) && AtRestBut(layout, h)
      requires h in layout.blocks && layout.blocks[h].kind.Freeing?
      modifies this`pfndb, this`queues, this`layout
      ensures |queues| == BUDDY_ORDERS && Good(layout, pfndb, queues) && AtRestBut(layout, h)
      ensures h in layout.blocks && layout.blocks[h].kind.Freeing? && Keeps(old(layout), layout)
      ensures UsedBlocks(layout) == old(UsedBlocks(layout)) && layout.head.Keys == old(layout.head.Keys)
      ensures FreePages(layout) == old(FreePages(layout)) && WiredPages(layout) == old(WiredPages(layout))
      ensures h in pfndb && h in old(pfndb) && pfndb[h].maxOrder == old(pfndb)[h].maxOrder
      ensures var k0, k, most := old(layout.blocks[h].order), layout.blocks[h].order, old(pfndb)[h].maxOrder;
              && Grown(old(layout), layout, h, k0, k) && (k0 < k ==> k <= most)
              && (most <= k || (!FreeAt(old(layout), BuddyOf(h, k), k) && !FreeAt(layout, BuddyOf(h, k), k)))
              && (k0 == k ==> !MergesAt(old(pfndb), h) && pfndb == old(pfndb) && layout == old(layout))
              && (k0 < k ==>
                    && !NoStale(layout, pfndb) && MergesAt(old(pfndb), h)
                    && MarkLeft(layout, pfndb, h, BuddyOf(h, k0)))
    {
      hide UsedBlocks, NotUsed, NoStale, Good, AtRest, AtRestBut, Keeps, FreePages, WiredPages, MergeAt, Pow2, Extent,
        Joined, Dropped, Aligned, FreeAt, BuddyOf, Grown, MarkLeft;
      var page := h;
      KeepsRefl(layout);
      TakeIndex(layout, pfndb, queues, page, layout.blocks[page].order);
      ghost var b0, k0 := BuddyOf(h, pfndb[h].order), pfndb[h].order;
      GrownStart(layout, h, k0);
      while pfndb[page].order < pfndb[page].maxOrder
        invariant page == h && |queues| == BUDDY_ORDERS && page in pfndb && page in layout.blocks
        invariant Good(layout, pfndb, queues) && AtRestBut(layout, page) && layout.blocks[page].kind.Freeing?
        invariant pfndb[page].order == layout.blocks[page].order && Keeps(old(layout), layout)
        invariant UsedBlocks(layout) == old(UsedBlocks(layout)) && layout.head.Keys == old(layout.head.Keys)
        invariant FreePages(layout) == old(FreePages(layout)) && WiredPages(layout) == old(WiredPages(layout))
        invariant Grown(old(layout), layout, h, k0, pfndb[page].order) && k0 <= pfndb[page].order
        invariant pfndb[page].maxOrder == old(pfndb)[h].maxOrder
        invariant k0 < pfndb[page].order ==> pfndb[page].order <= pfndb[page].maxOrder
        invariant pfndb[page].order == k0 ==> pfndb == old(pfndb) && layout == old(layout)
        invariant pfndb[page].order != k0 ==>
                    !NoStale(layout, pfndb) && MergesAt(old(pfndb), h) && MarkLeft(layout, pfndb, h, b0)
        decreases BUDDY_ORDERS - pfndb[page].order
      {
        var k := pfndb[page].order;
        var buddy := BuddyOf(page, k);
        FreedBuddy(layout, pfndb, queues, page, k);
        if pfndb[buddy].order != pfndb[page].order {
          GrownStops(old(layout), layout, pfndb, queues, h, k0, k, buddy);
          break;
        } else if !pfndb[buddy].onFreelist {
          GrownStops(old(layout), layout, pfndb, queues, h, k0, k, buddy);
          break;
        }
        GrownMore(old(layout), layout, h, k0, k, buddy);
        MergeStep(old(layout), layout, pfndb, queues, page, k, buddy);
        MarkStays(layout, pfndb, queues, page, k, buddy, b0);
        queues := Delist(queues, pfndb[buddy].order, buddy);
        if page > buddy {
          page, buddy := buddy, page;
        }
        layout := MergeAt(layout, page, k, buddy);
        pfndb := pfndb[page := pfndb[page].(order := pfndb[page].order + 1)];
      }
    }

    /** `vmp_page_free_locked` and `page_free`: an allocated block goes back, merged with
        the blocks after it: with every one that was free in turn, as far as its first
        block reached, and with no more. */
    method FreePagesAt(h: Pfn)
      requires Valid() && h in layout.blocks && layout.blocks[h].kind.Allocated?
      modifies this
      ensures Valid() && Keeps(WithKind(old(layout), h, Freeing), layout)
      ensures FreePages(layout) == Joined(old(FreePages(layout)), h, Pow2(old(layout.blocks[h].order)))
      ensures Extent(h, Pow2(old(layout.blocks[h].order))) !! old(FreePages(layout))
      ensures nfree == old(nfree) + Pow2(old(layout.blocks[h].order))
      ensures ntotal == old(ntotal) && npwired == old(npwired)
      ensures UsedBlocks(layout) == NotUsed(old(UsedBlocks(layout)), h)
      ensures h in layout.blocks && layout.blocks[h].kind.Free? && old(layout.blocks[h].order) <= layout.blocks[h].order
      ensures h in old(pfndb) && old(pfndb)[h].order == old(layout.blocks[h].order)
      ensures h in pfndb && pfndb[h].maxOrder == old(pfndb)[h].maxOrder
      ensures var k0, k, most := old(layout.blocks[h].order), layout.blocks[h].order, old(pfndb)[h].maxOrder;
              && (forall j: nat :: k0 <= j < k ==> FreeAt(old(layout), BuddyOf(h, j), j)) && (k0 < k ==> k <= most)
              && (most <= k || (!FreeAt(old(layout), BuddyOf(h, k), k) && !FreeAt(layout, BuddyOf(h, k), k)))
      ensures h !in old(layout).roots ==> layout.blocks[h].order == old(layout.blocks[h].order)
      ensures old(NoStale(layout, pfndb)) ==> (NoStale(layout, pfndb) <==> !old(MergesAt(pfndb, h)))
      ensures old(MergesAt(pfndb, h)) ==>
                var b := BuddyOf(h, old(pfndb)[h].order);
                b in layout.head && layout.head[b] == h && h != b && b in pfndb && pfndb[b].onFreelist
    {
      hide UsedBlocks, NotUsed, NoStale, Good, AtRest, AtRestBut, Keeps, FreePages, WiredPages, MergeAt, Pow2, Extent,
        Joined, Dropped, Aligned, FreeAt, BuddyOf, Grown, MergesAt;
      var page := h;
      FreeStart(layout, pfndb, queues, h);
      SameStale(layout, pfndb, page, Freeing);
      nfree := nfree + Pow2(pfndb[page].order);
      layout := WithKind(layout, h, Freeing);
      ghost var l1, k0 := layout, pfndb[page].order;
      MergeUp(page);
      TakeIndex(old(layout), old(pfndb), old(queues), page, k0);
      TakeIndex(layout, pfndb, queues, page, layout.blocks[page].order);
      StalePut(layout, pfndb, page);
      FreeEnd(layout, pfndb, queues, page);
      KeepsThen(l1, layout, WithKind(layout, page, Free));
      GrownEnd(old(layout), l1, layout, h, k0, pfndb[page].order, BuddyOf(h, pfndb[page].order));
      queues := Enlist(queues, pfndb[page].order, page);
      pfndb := pfndb[page := pfndb[page].(onFreelist := true)];
      layout := WithKind(layout, page, Free);
    }
  }

  /** One split of the descent, with the fields and free lists. */
  lemma {:induction false} UnfreeSplit(l0: Layout, l: Layout, frames: map<Pfn, Frame>, queues: seq<seq<Pfn>>,
                                       h: Pfn, init: Pfn, k: nat, mid: Pfn, page: Pfn, order: nat)
    requires Tiles(l0) && Good(l, frames, queues) && AtRest(l) && NoStale(l, frames)
    requires Down(l0, l, h, init, k + 1, page, order) && order <= k && mid == init + Pow2(k)
    ensures init in l.blocks && init in frames && mid in frames && mid != init && k + 1 < |queues|
    ensures frames[init].order == k + 1 && frames[mid].order == k && frames[init].onFreelist && !frames[mid].onFreelist
    ensures var l', frames' := SplitAt(l, init, k, mid), SplitFrames(frames, init, k, mid);
            && Good(l', frames', SplitLists(queues, init, k, mid, init)) && AtRest(l') && NoStale(l', frames')
            && Keeps(l, l')
            && FreePages(l') == FreePages(l) && WiredPages(l') == WiredPages(l) && l'.head.Keys == l.head.Keys
            && Down(l0, l', h, if mid <= page then mid else init, k, page, order)
  {
    DownAt(l0, l, h, init, k + 1, page, order);
    TakeIndex(l, frames, queues, init, k + 1);
    GoodTiles(l, frames, queues);
    hide Tiles, FramesOk, QueuesOk, AtRest, Keeps, Down, Aligned, Natural, Covers, Exclusive, SplitAt, FreePages,
      WiredPages;
    MidInside(l, init, k, mid);
    MidFrame(l, frames, init, k, mid);
    SplitGood(l, frames, queues, init, k, mid);
    SplitKeeps(l, init, k, mid);
    StaleSplit(l, frames, init, k, mid);
    DownSplit(l0, l, h, init, k, mid, page, order);
  }

  /** Following the recorded orders back from a frame of a block leads to its head. */
  lemma {:induction false} UnfreeFacts(l: Layout, frames: map<Pfn, Frame>, queues: seq<seq<Pfn>>, p: Pfn)
    requires Good(l, frames, queues) && NoStale(l, frames) && p in l.head && l.head[p] in l.blocks
    requires l.blocks[l.head[p]].kind.Free?
    ensures p in frames && l.head[p] <= p && (frames[p].onFreelist <==> l.head[p] == p)
    ensures l.head[p] != p ==>
              && Pow2(frames[p].order) <= p - l.head[p] && p - Pow2(frames[p].order) in l.head
              && l.head[p - Pow2(frames[p].order)] == l.head[p]
  {
    hide Aligned, Natural;
    TilesParts(l);
    if l.head[p] != p {
      StepDown(l, frames, p);
    } else {
      TakeIndex(l, frames, queues, p, l.blocks[p].order);
    }
  }

  lemma {:induction false} StaleTake(l: Layout, frames: map<Pfn, Frame>, h: Pfn, kind: Kind)
    requires NoStale(l, frames) && h in l.blocks && h in frames && h in l.head
    ensures NoStale(WithKind(l, h, kind), frames[h := frames[h].(onFreelist := false)])
  {
  }

  /** The descent has reached the page: it can be taken out. */
  lemma {:induction false} UnfreeEnd(l0: Layout, l: Layout, frames: map<Pfn, Frame>, queues: seq<seq<Pfn>>,
                                     h: Pfn, init: Pfn, page: Pfn, order: nat)
    requires Tiles(l0) && Good(l, frames, queues) && AtRest(l) && NoStale(l, frames) && Keeps(l0, l)
    requires Aligned(page, order)
    requires Down(l0, l, h, init, order, page, order)
    ensures init == page && page in l.blocks && l.blocks[page].order == order && page in frames
    ensures frames[page].onFreelist
    ensures order < |queues|
    ensures var l', frames' := WithKind(l, page, Wired), frames[page := frames[page].(onFreelist := false)];
            && Good(l', frames', Delist(queues, order, page)) && AtRest(l') && NoStale(l', frames') && Keeps(l0, l')
            && FreePages(l') == Dropped(FreePages(l0), page, Pow2(order))
            && |FreePages(l')| == |FreePages(l)| - Pow2(order)
            && |WiredPages(l')| == |WiredPages(l)| + Pow2(order)
            && (Coalesced(l0) ==> Coalesced(l')) && l'.head == l.head
  {
    hide AtRest, Keeps, FreePages, WiredPages, Pow2, Extent, Joined, Dropped, Aligned, Down, NoStale, Coalesced, Good,
      Tiles;
    GoodTiles(l, frames, queues);
    DownEnd(l0, l, h, init, page, order, Wired);
    DownAt(l0, l, h, init, order, page, order);
    TakeIndex(l, frames, queues, page, order);
    TakeOut(l, frames, queues, page, order, Wired);
    KeepsThen(l0, l, WithKind(l, page, Wired));
    StaleTake(l, frames, page, Wired);
  }

  /** Allocation goes down from the first block of a list, into the second half each time. */
  lemma {:induction false} AllocStart(l: Layout, frames: map<Pfn, Frame>, queues: seq<seq<Pfn>>, order: nat,
                                      desired: nat)
    requires Good(l, frames, queues) && desired <= order < BUDDY_ORDERS && queues[order] != []
    ensures Down(l, l, queues[order][0], queues[order][0], order, queues[order][0], desired)
  {
    hide Down;
    FirstIsFree(l, frames, queues, order);
    GoodTiles(l, frames, queues);
    OwnHead(l, queues[order][0]);
    DownStart(l, queues[order][0], desired);
  }

  lemma {:induction false} MiddleIn(page: Pfn, order: nat)
    requires 0 < order
    ensures In(page + Pow2(order - 1), page, order)
  {
  }

  lemma {:induction false} AllocDown(l0: Layout, l: Layout, frames0: map<Pfn, Frame>, queues0: seq<seq<Pfn>>,
                                     frames: map<Pfn, Frame>, queues: seq<seq<Pfn>>, h: Pfn, order: nat, desired: nat)
    requires Good(l0, frames0, queues0) && Good(l, frames, queues)
    requires desired < order < BUDDY_ORDERS == |queues| && queues[order] != []
    requires Down(l0, l, h, queues[order][0], order, queues[order][0], desired)
    ensures var (page, mid) := (queues[order][0], queues[order][0] + Pow2(order - 1));
            page in l.blocks && Down(l0, SplitAt(l, page, order - 1, mid), h, mid, order - 1, mid, desired)
  {
    hide Down, Good, Tiles, Covers, Exclusive, Pow2, SplitAt, In, Aligned;
    var (page, mid) := (queues[order][0], queues[order][0] + Pow2(order - 1));
    MiddleIn(page, order);
    GoodTiles(l0, frames0, queues0);
    GoodTiles(l, frames, queues);
    DownAny(l0, l, h, page, order, page, mid, desired);
    DownSplit(l0, l, h, page, order - 1, mid, mid, desired);
  }

  lemma {:induction false} AllocEnd(l0: Layout, l: Layout, frames0: map<Pfn, Frame>, queues0: seq<seq<Pfn>>,
                                    frames: map<Pfn, Frame>, queues: seq<seq<Pfn>>, h: Pfn, page: Pfn, order: nat)
    requires Good(l0, frames0, queues0) && Good(l, frames, queues) && Down(l0, l, h, page, order, page, order)
    ensures page in l.blocks && page in frames
    ensures Coalesced(l0) ==> Coalesced(WithKind(l, page, Allocated))
    ensures NoStale(l, frames) ==>
              NoStale(WithKind(l, page, Allocated), frames[page := frames[page].(onFreelist := false)])
  {
    hide Down, Good, Tiles, NoStale, Coalesced, Aligned, Covers, Exclusive;
    DownAt(l0, l, h, page, order, page, order);
    GoodTiles(l0, frames0, queues0);
    GoodTiles(l, frames, queues);
    OrderBound(l, page);
    OwnHead(l, page);
    TakeIndex(l, frames, queues, page, order);
    DownEnd(l0, l, h, page, page, order, Allocated);
    if NoStale(l, frames) {
      StaleTake(l, frames, page, Allocated);
    }
  }

  lemma {:induction false} DownAt(l0: Layout, l: Layout, h: Pfn, init: Pfn, o: nat, page: Pfn, order: nat)
    requires Down(l0, l, h, init, o, page, order)
    ensures FreeAt(l, init, o) && FreePages(l) == FreePages(l0) && WiredPages(l) == WiredPages(l0) && order <= o
  {
  }

  lemma {:induction false} KeepsRefl(l: Layout)
    ensures Keeps(l, l)
  {
  }

  lemma {:induction false} FreeIsBlock(l: Layout, h: Pfn, k: nat)
    requires FreeAt(l, h, k)
    ensures h in l.blocks && l.blocks[h].order == k
  {
  }

  // ----------------------------------------------------------------- ranges, regions

  lemma {:induction false} ExtentNone(f: set<Pfn>, a: Pfn)
    ensures Dropped(f, a, 0) == f && Joined(f, a, 0) == f
  {
  }

  lemma {:induction false} ExtentJoin(a: Pfn, m: nat, n: nat)
    ensures Extent(a, m + n) == Extent(a, m) + Extent(a + m, n)
  {
    if n > 0 {
      ExtentJoin(a, m, n - 1);
    }
  }

  lemma {:induction false} KeepsRegion(l: Layout, l': Layout, base: nat, limit: nat)
    requires Keeps(l, l') && Region(l, base, limit)
    ensures Region(l', base, limit)
  {
    RegionStays(l, l', base, limit);
  }

  /** The next piece of a free range lies in one free block. */
  lemma {:induction false} RangeNext(l: Layout, regionBase: nat, regionLimit: nat, free: set<Pfn>, base: Pfn,
                                     done: nat, order: nat, limit: nat)
    requires Region(l, regionBase, regionLimit) && Coalesced(l) && AtRest(l) && BestOrder(base + done, limit, order)
    requires regionBase <= base && base + done < limit <= regionLimit && Extent(base, limit - base) <= free
    requires FreePages(l) == Dropped(free, base, done)
    ensures var i := base + done;
            && Aligned(i, order) && i in l.head && l.head[i] in l.blocks && l.blocks[l.head[i]].kind.Free?
            && order <= l.blocks[l.head[i]].order && i + Pow2(order) <= limit
  {
    hide FreePages, Aligned, Coalesced, Extent;
    var i := base + done;
    ExtentHas(base, limit - base);
    ExtentHas(base, done);
    assert InRoot(l, i, order);
    forall p | In(p, i, order) ensures p in FreePages(l) {
      assert p in Extent(base, limit - base) && p !in Extent(base, done);
    }
    assert In(i, i, order);
    FreeNodeBlock(l, i, order);
  }

  lemma {:induction false} FreeNodeBlock(l: Layout, a: Pfn, j: nat)
    requires Coalesced(l) && AtRest(l) && FreeNode(l, a, j)
    ensures a in l.head && l.head[a] in l.blocks && l.blocks[l.head[a]].kind.Free? && j <= l.blocks[l.head[a]].order
  {
    assert In(a, a, j);
    assert a in FreePages(l);
  }

  lemma {:induction false} HeadsIn(l: Layout, frames: map<Pfn, Frame>, queues: seq<seq<Pfn>>)
    requires Good(l, frames, queues)
    ensures forall p :: p in l.head ==> p in frames
  {
  }

  /** Preparing one more frame of a region disturbs nothing. */
  lemma {:induction false} PrepareNext(l: Layout, frames: map<Pfn, Frame>, queues: seq<seq<Pfn>>, base: nat, i: Pfn,
                                       limit: nat, order: nat)
    requires Good(l, frames, queues) && NoStale(l, frames) && i !in l.head && BestOrder(i, limit, order)
    requires forall p :: base <= p < i ==> Prepared(frames, p, limit)
    ensures var frames' := frames[i := Frame(order, 0, false)];
            && Good(l, frames', queues) && NoStale(l, frames')
            && (forall p :: base <= p < i + 1 ==> Prepared(frames', p, limit))
  {
    hide BestOrder, Tiles, FramesOk, QueuesOk;
    var frames' := frames[i := Frame(order, 0, false)];
    HeadsIn(l, frames, queues);
    OtherFrames(l, frames, frames', queues);
    forall p | base <= p < i + 1 ensures Prepared(frames', p, limit) {
      assert p < i ==> Prepared(frames, p, limit);
    }
  }

  lemma {:induction false} RootsKeptSelf(l: Layout)
    ensures RootsKept(l, l)
  {
  }

  lemma {:induction false} BuildEnd(l: Layout, frames: map<Pfn, Frame>, base: nat, limit: nat)
    requires base <= limit && Built(l, frames, base, limit, limit)
    ensures Region(l, base, limit)
  {
    hide HasRoot;
    RegionOf(l, base, limit);
  }

  /** One more first block. */
  lemma {:induction false} BuildNext(l: Layout, frames: map<Pfn, Frame>, queues: seq<seq<Pfn>>, base: nat, i: Pfn,
                                     limit: nat, k: nat)
    requires Good(l, frames, queues) && AtRest(l) && NoStale(l, frames) && Coalesced(l)
    requires Built(l, frames, base, i, limit)
    requires 0 < base <= i < limit && New(l, i, k) && Ready(frames, i, k) && i in frames && frames[i].order == k
    requires i + Pow2(k) <= limit
    ensures k < |queues|
    ensures var l', frames' := AddRoot(l, i, k), frames[i := frames[i].(onFreelist := true, maxOrder := k)];
            && Good(l', frames', Enlist(queues, k, i)) && AtRest(l') && NoStale(l', frames') && Coalesced(l')
            && Built(l', frames', base, i + Pow2(k), limit) && RootsKept(l, l')
  {
    hide AtRest, NoStale, Coalesced, Built, Pow2, New, Ready, Good, Tiles, AddRoot, RootsKept;
    GoodTiles(l, frames, queues);
    AddRootGood(l, frames, queues, i, k);
    AddRootStale(l, frames, i, k);
    AddRootCoalesced(l, i, k);
    BuiltNext(l, frames, base, i, limit);
    AddRootRest(l, i, k);
  }

  lemma {:induction false} BuildSets(l: Layout, frames: map<Pfn, Frame>, queues: seq<seq<Pfn>>, free: set<Pfn>,
                                     all: set<Pfn>,
                                     base: nat, n: nat, i: Pfn, k: nat)
    requires Good(l, frames, queues) && New(l, i, k) && i == base + n
    requires FreePages(l) == Joined(free, base, n) && l.head.Keys == Joined(all, base, n)
    ensures var l' := AddRoot(l, i, k);
            && FreePages(l') == Joined(free, base, n + Pow2(k)) && l'.head.Keys == Joined(all, base, n + Pow2(k))
            && |FreePages(l')| == |FreePages(l)| + Pow2(k) && |l'.head.Keys| == |l.head.Keys| + Pow2(k)
            && WiredPages(l') == WiredPages(l)
  {
    hide FreePages, WiredPages, Pow2, Extent, Joined, Dropped, New, Good, Tiles, AddRoot;
    GoodTiles(l, frames, queues);
    AddRootPages(l, i, k);
    AddRootSets(l, i, k);
    ExtentGrows(free, base, n, Pow2(k));
    ExtentGrows(all, base, n, Pow2(k));
  }

  lemma {:induction false} AddRootRest(l: Layout, h: Pfn, k: nat)
    requires AtRest(l)
    ensures AtRest(AddRoot(l, h, k))
  {
  }

  lemma {:induction false} ExtentGrows(f: set<Pfn>, a: Pfn, m: nat, n: nat)
    ensures Joined(Joined(f, a, m), a + m, n) == Joined(f, a, m + n)
    ensures Dropped(Dropped(f, a, m), a + m, n) == Dropped(f, a, m + n)
  {
    hide Extent;
    ExtentJoin(a, m, n);
  }

  // ----------------------------------------------------------------- a mark left behind

  lemma {:induction false} SmallPowers()
    ensures Pow2(0) == 1 && Pow2(1) == 2 && Pow2(2) == 4
  {
  }

  lemma {:induction false} TwoRoot(l: Layout)
    requires RootsOk(l) && Region(l, 2, 4) && l.head.Keys == {2, 3}
    ensures 2 in l.roots && 1 <= l.roots[2]
  {
    SmallPowers();
    assert Aligned(2, 1) && 2 + Pow2(1) <= 4;
    hide Aligned;
    assert InRoot(l, 2, 1);
    var r :| r in l.roots && Within(2, 1, r, l.roots[r]);
    assert In(r, r, l.roots[r]);
    assert r in l.head.Keys;
  }

  lemma {:induction false} NextIn(p: Pfn, k: nat)
    ensures 0 < k ==> In(p + 1, p, k)
  {
    if 0 < k {
      Pow2Monotone(1, k);
      SmallPowers();
    }
  }

  /** Of frames 2 and 3, a block at 3 is frame 3 alone. */
  lemma {:induction false} TwoBlocks(l: Layout, h: Pfn)
    requires Exclusive(l) && h in l.blocks && l.head.Keys == {2, 3}
    ensures h == 2 || (h == 3 && l.blocks[h].order == 0)
  {
    OwnHead(l, h);
    assert h in l.head.Keys;
    NextIn(3, l.blocks[h].order);
    hide Pow2, In;
    assert h == 3 && In(4, 3, l.blocks[h].order) ==> 4 in l.head.Keys;
  }

  lemma {:induction false} PairExtent()
    ensures Extent(2, 2) == {2, 3} && Joined({}, 2, 2) == {2, 3}
    ensures Extent(2, 1) == {2} && Extent(3, 1) == {3}
  {
  }

  lemma {:induction false} SomeFree(l: Layout, p: Pfn)
    requires p in FreePages(l) && AtRest(l)
    ensures p in l.head && l.head[p] in l.blocks && FreeAt(l, l.head[p], l.blocks[l.head[p]].order)
  {
  }

  lemma {:induction false} NoneYet(l: Layout)
    requires l.head == map[]
    ensures FreePages(l) == {} && Joined(FreePages(l), 2, 2) == {2, 3} && Joined(l.head.Keys, 2, 2) == {2, 3}
  {
    PairExtent();
  }

  /** What is allocated of the two frames. */
  lemma {:induction false} OneOf(free: set<Pfn>, p: Pfn)
    requires Extent(p, Pow2(0)) <= free
    ensures p in free && Dropped(free, p, Pow2(0)) == free - {p}
  {
    SmallPowers();
    assert Extent(p, 1) == {p};
  }

  /** Frame 3 free and frame 2 in use: freeing frame 2 merges them. */
  lemma {:induction false} WillMerge(l: Layout, frames: map<Pfn, Frame>, queues: seq<seq<Pfn>>)
    requires Good(l, frames, queues) && Region(l, 2, 4) && l.head.Keys == {2, 3}
    requires 2 in l.blocks && l.blocks[2].order == 0 && 3 in l.blocks && l.blocks[3].kind.Free?
    ensures MergesAt(frames, 2) && BuddyOf(2, frames[2].order) == 3
  {
    hide Good, Tiles, Covers, Exclusive, Shapes, RootsOk, Region, Pow2;
    GoodTiles(l, frames, queues);
    TilesParts(l);
    TwoRoot(l);
    TwoBlocks(l, 3);
    SmallPowers();
    TakeIndex(l, frames, queues, 2, 0);
    TakeIndex(l, frames, queues, 3, 0);
  }

  lemma {:induction false} ThreeOdd(k: nat)
    requires Aligned(3, k)
    ensures k == 0
  {
    SmallPowers();
    if 1 < k {
      Pow2Monotone(2, k);
    }
  }

  /** A marked frame 3 inside block 2: where the walk ends and what it finds there. */
  lemma {:induction false} MarkMisleads(l: Layout, frames: map<Pfn, Frame>, queues: seq<seq<Pfn>>)
    requires Good(l, frames, queues) && MarkLeft(l, frames, 2, 3) && 2 in l.blocks && l.blocks[2].kind.Free?
    ensures !NoStale(l, frames) && InFree(l, 3) && WalkBack(l, frames, queues, 3) == 3
    ensures frames[3].order == 0 && 0 < |queues| && 3 !in queues[0]
  {
    TilesParts(l);
    OwnHead(l, 3);
    assert Natural(3, frames[3].order);
    ThreeOdd(frames[3].order);
    hide Aligned, Pow2, Covers, Shapes, RootsOk;
  }

  /** A region of two frames, both allocated, is freed again: frame 3 first, then frame 2,
      which merges with it. Frame 3 now lies inside block 2 but is marked: the walk started
      there stays there, at an order whose free list does not hold it. */
  method LeaveMark() returns (db: PageFrameDatabase)
    ensures db.Valid() && !NoStale(db.layout, db.pfndb)
    ensures InFree(db.layout, 3) && db.layout.head[3] == 2
    ensures WalkBack(db.layout, db.pfndb, db.queues, 3) == 3
    ensures 3 in db.pfndb && db.pfndb[3].order == 0 && 3 !in db.queues[0]
  {
    hide UsedBlocks, Good, AtRest, FreePages, WiredPages, NoStale, Coalesced, Region, Pow2, Extent, Joined, Dropped,
      NotUsed, BuddyOf, MergesAt, InFree, WalkBack;
    db := new PageFrameDatabase();
    NoneYet(db.layout);
    db.RegionAdd(2, 4);
    AllocateBoth(db);
    ghost var l := db.layout;
    db.FreePagesAt(3);
    RegionStays(l, db.layout, 2, 4);
    WillMerge(db.layout, db.pfndb, db.queues);
    db.FreePagesAt(2);
    MarkMisleads(db.layout, db.pfndb, db.queues);
  }

  method AllocateBoth(db: PageFrameDatabase)
    requires db.Valid() && Region(db.layout, 2, 4) && db.layout.head.Keys == {2, 3} && FreePages(db.layout) == {2, 3}
    modifies db
    ensures db.Valid() && Region(db.layout, 2, 4) && db.layout.head.Keys == {2, 3}
    ensures 2 in db.layout.blocks && db.layout.blocks[2] == Block(0, Allocated)
    ensures 3 in db.layout.blocks && db.layout.blocks[3] == Block(0, Allocated) && FreePages(db.layout) == {}
  {
    hide UsedBlocks, Good, AtRest, FreePages, WiredPages, NoStale, Coalesced, Region, Pow2, Extent, Joined, Dropped;
    ghost var l := db.layout;
    SomeFree(l, 2);
    var r := db.AllocPages(0);
    OneOf({2, 3}, r.value);
    KeepsRegion(l, db.layout, 2, 4);
    ghost var rest := {2, 3} - {r.value};
    ghost var p := 5 - r.value;
    assert rest == {p};
    ghost var l1 := db.layout;
    SomeFree(l1, p);
    var r2 := db.AllocPages(0);
    OneOf(rest, r2.value);
    assert rest - {p} == {};
    KeepsRegion(l1, db.layout, 2, 4);
  }

  // --------------------------------------------------------------- a pair not merged

  /** With frame 3 a block of its own, frames 2 and 3 are blocks of one frame each. */
  lemma {:induction false} BothSingle(l: Layout, h: Pfn, k: nat)
    requires Exclusive(l) && l.head.Keys == {2, 3} && 3 in l.blocks && FreeAt(l, h, k)
    ensures k == 0
  {
    TwoBlocks(l, h);
    OwnHead(l, 3);
    NextIn(2, k);
  }

  lemma {:induction false} NoPair(l: Layout, frames: map<Pfn, Frame>, queues: seq<seq<Pfn>>)
    requires |queues| == BUDDY_ORDERS && Good(l, frames, queues) && l.head.Keys == {2, 3} && 3 in l.blocks
    ensures forall k: nat :: !BestFit(queues, 1, k)
  {
    GoodTiles(l, frames, queues);
    hide Good, Tiles, Covers, FreeAt;
    forall k: nat ensures !BestFit(queues, 1, k) {
      if BestFit(queues, 1, k) {
        FirstIsFree(l, frames, queues, k);
        BothSingle(l, queues[k][0], k);
      }
    }
  }

  /** A block in use stays while another is freed. */
  lemma {:induction false} OtherStays(l: Layout, l': Layout, h: Pfn, g: Pfn)
    requires h in l.blocks && g in l.blocks && g != h && l.blocks[g].kind.Allocated?
    requires Keeps(WithKind(l, h, Freeing), l')
    ensures g in l'.blocks && l'.blocks[g] == l.blocks[g] && l'.head.Keys == l.head.Keys
  {
  }

  lemma {:induction false} FreedOne()
    ensures Joined({}, 2, Pow2(0)) == {2} && Joined({2}, 3, Pow2(0)) == {2, 3}
  {
    SmallPowers();
    PairExtent();
  }

  method FreeBoth(db: PageFrameDatabase)
    requires db.Valid() && db.layout.head.Keys == {2, 3} && FreePages(db.layout) == {}
    requires 2 in db.layout.blocks && db.layout.blocks[2] == Block(0, Allocated)
    requires 3 in db.layout.blocks && db.layout.blocks[3] == Block(0, Allocated)
    modifies db
    ensures db.Valid() && db.layout.head.Keys == {2, 3} && FreePages(db.layout) == {2, 3} && 3 in db.layout.blocks
  {
    hide UsedBlocks, Good, AtRest, FreePages, WiredPages, NoStale, Keeps, Pow2, Extent, Joined, NotUsed, BuddyOf,
      MergesAt, FreeAt;
    ghost var l := db.layout;
    FreedOne();
    db.FreePagesAt(2);
    OtherStays(l, db.layout, 2, 3);
    ghost var l1 := db.layout;
    db.FreePagesAt(3);
    SameFrames(l1, db.layout, 3);
  }

  lemma {:induction false} SameFrames(l: Layout, l': Layout, h: Pfn)
    requires h in l.blocks && Keeps(WithKind(l, h, Freeing), l')
    ensures l'.head.Keys == l.head.Keys
  {
  }

  /** A pair of frames, both allocated, is freed again: frame 2 first, then frame 3, which no
      block of the region started at and which is therefore not merged. Both are free, and
      a block of two cannot be had. */
  method StaysSplit() returns (db: PageFrameDatabase, r: Option<Pfn>)
    ensures db.Valid() && FreePages(db.layout) == {2, 3} && r.None?
  {
    hide UsedBlocks, Good, AtRest, FreePages, WiredPages, NoStale, Coalesced, Region, Pow2, Extent, Joined, Dropped,
      NotUsed, BuddyOf, MergesAt, FreeAt, BestFit;
    db := new PageFrameDatabase();
    NoneYet(db.layout);
    db.RegionAdd(2, 4);
    AllocateBoth(db);
    FreeBoth(db);
    NoPair(db.layout, db.pfndb, db.queues);
    r := db.AllocPages(1);
  }
}
