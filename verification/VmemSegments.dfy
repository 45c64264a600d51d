/**
  The segment queue of a VMem arena, as a value: span markers, each followed by
  the free and allocated segments that tile it. This module says what a
  well-formed queue is, proves that such a queue is determined by its spans and
  its live allocations, and that the two edits the allocator makes (splitting a
  free segment, freeing with coalescing) keep queues well formed.
 */
module VmemSegments {

  datatype Kind = Free | Allocated | Span

  datatype Seg = Seg(kind: Kind, base: nat, size: nat) {
    function End(): nat { base + size }
    predicate IsFree() { kind.Free? }
    predicate IsSpan() { kind.Span? }
    predicate IsAllocated() { kind.Allocated? }
  }

  /** `q` starts at a span marker (or is empty) and no span starts below `floor`. */
  predicate Arena(q: seq<Seg>, floor: nat)
    decreases |q|, 1
  {
    q == [] ||
    (q[0].IsSpan() && floor <= q[0].base && 0 < q[0].size
     && Tiles(q[1..], q[0].base, q[0].End(), false))
  }

  /** The segments up to the next span marker tile `[at, limit)` exactly, no two
      neighbours are both free, and what follows is an arena above `limit`. */
  predicate Tiles(q: seq<Seg>, at: nat, limit: nat, afterFree: bool)
    decreases |q|, 2
  {
    if at == limit then Arena(q, limit)
    else
      q != [] && !q[0].IsSpan() && q[0].base == at && 0 < q[0].size
      && q[0].End() <= limit && !(afterFree && q[0].IsFree())
      && Tiles(q[1..], q[0].End(), limit, q[0].IsFree())
  }

  ghost function Live(q: seq<Seg>): set<Seg> {
    set s | s in q && s.IsAllocated()
  }

  function Spans(q: seq<Seg>): seq<Seg> {
    if q == [] then []
    else if q[0].IsSpan() then [q[0]] + Spans(q[1..])
    else Spans(q[1..])
  }

  /** Sum of the sizes of the allocated segments. */
  function Used(q: seq<Seg>): nat {
    if q == [] then 0
    else (if q[0].IsAllocated() then q[0].size else 0) + Used(q[1..])
  }

  // ---------------------------------------------------------------- ordering

  lemma {:induction false} ArenaBases(q: seq<Seg>, floor: nat)
    requires Arena(q, floor)
    ensures forall s :: s in q ==> floor <= s.base && 0 < s.size
    decreases |q|, 1
  {
    if q != [] {
      TilesBases(q[1..], q[0].base, q[0].End(), false);
    }
  }

  lemma {:induction false} TilesBases(q: seq<Seg>, at: nat, limit: nat, afterFree: bool)
    requires Tiles(q, at, limit, afterFree)
    ensures at <= limit || at == limit || q != []
    ensures forall s :: s in q ==> at <= s.base && 0 < s.size
    decreases |q|, 2
  {
    if at == limit {
      ArenaBases(q, limit);
    } else {
      TilesBases(q[1..], q[0].End(), limit, q[0].IsFree());
    }
  }

  // ------------------------------------------------------------- uniqueness

  lemma {:induction false} HeadOrTail(q: seq<Seg>)
    requires q != []
    ensures forall s :: s in q <==> s == q[0] || s in q[1..]
  {
    assert q == [q[0]] + q[1..];
  }

  lemma {:induction false} FreeHeadNotShorter(p: seq<Seg>, q: seq<Seg>, at: nat, limit: nat, afterFree: bool)
    requires Tiles(p, at, limit, afterFree) && Tiles(q, at, limit, afterFree) && at != limit
    requires Live(p) <= Live(q)
    requires p[0].IsFree() && q[0].IsFree()
    ensures q[0].size <= p[0].size
  {
    TilesBases(q[1..], q[0].End(), limit, true);
    HeadOrTail(q);
    var next := p[1..];
    assert p[0].End() < limit ==> next != [] && next[0] in p && next[0] in Live(p);
  }

  lemma {:induction false} LiveTail(q: seq<Seg>, at: nat, limit: nat, afterFree: bool)
    requires Tiles(q, at, limit, afterFree) && at != limit
    ensures Live(q[1..]) == (if q[0].IsAllocated() then Live(q) - {q[0]} else Live(q))
  {
    TilesBases(q[1..], q[0].End(), limit, q[0].IsFree());
    assert q == [q[0]] + q[1..];
  }

  /** Two queues that tile the same range, with the same spans after it and the
      same live allocations, are the same queue. */
  lemma {:induction false} TilesUnique(p: seq<Seg>, q: seq<Seg>, at: nat, limit: nat, afterFree: bool)
    requires Tiles(p, at, limit, afterFree) && Tiles(q, at, limit, afterFree)
    requires Live(p) == Live(q) && Spans(p) == Spans(q)
    ensures p == q
    decreases |p|, 2
  {
    if at == limit {
      ArenaUnique(p, q, limit);
    } else {
      SameHead(p, q, at, limit, afterFree);
      LiveTail(p, at, limit, afterFree);
      LiveTail(q, at, limit, afterFree);
      TilesUnique(p[1..], q[1..], p[0].End(), limit, p[0].IsFree());
      assert p == [p[0]] + p[1..] && q == [q[0]] + q[1..];
    }
  }

  lemma {:induction false} SameHead(p: seq<Seg>, q: seq<Seg>, at: nat, limit: nat, afterFree: bool)
    requires Tiles(p, at, limit, afterFree) && Tiles(q, at, limit, afterFree) && at != limit
    requires Live(p) == Live(q)
    ensures p[0] == q[0]
  {
    TilesBases(p[1..], p[0].End(), limit, p[0].IsFree());
    TilesBases(q[1..], q[0].End(), limit, q[0].IsFree());
    HeadOrTail(p);
    HeadOrTail(q);
    assert p[0].IsAllocated() ==> p[0] in Live(p);
    assert q[0].IsAllocated() ==> q[0] in Live(q);
    if p[0].IsFree() && q[0].IsFree() {
      FreeHeadNotShorter(p, q, at, limit, afterFree);
      FreeHeadNotShorter(q, p, at, limit, afterFree);
    }
  }

  /** The segment queue is a function of the spans and the live allocations. */
  lemma {:induction false} ArenaUnique(p: seq<Seg>, q: seq<Seg>, floor: nat)
    requires Arena(p, floor) && Arena(q, floor)
    requires Live(p) == Live(q) && Spans(p) == Spans(q)
    ensures p == q
    decreases |p|, 1
  {
    assert p == [] <==> Spans(p) == [];
    assert q == [] <==> Spans(q) == [];
    if p != [] {
      assert p[0] == Spans(p)[0] == Spans(q)[0] == q[0];
      assert Spans(p[1..]) == Spans(p)[1..] == Spans(q)[1..] == Spans(q[1..]);
      assert p == [p[0]] + p[1..] && q == [q[0]] + q[1..];
      assert Live(p[1..]) == Live(p) && Live(q[1..]) == Live(q);
      TilesUnique(p[1..], q[1..], p[0].base, p[0].End(), false);
    }
  }

  // ------------------------------------------------------------ replacement

  /** In front of `rest`, `new` may stand wherever `old` may. */
  ghost predicate Swappable(old_: seq<Seg>, new_: seq<Seg>, rest: seq<Seg>) {
    && (forall floor: nat :: Arena(old_ + rest, floor) ==> Arena(new_ + rest, floor))
    && (forall at: nat, limit: nat, afterFree: bool ::
          Tiles(old_ + rest, at, limit, afterFree) ==> Tiles(new_ + rest, at, limit, afterFree))
  }

  lemma {:induction false} ReplaceInArena(a: seq<Seg>, old_: seq<Seg>, new_: seq<Seg>, rest: seq<Seg>, floor: nat)
    requires Swappable(old_, new_, rest)
    requires Arena(a + (old_ + rest), floor)
    ensures Arena(a + (new_ + rest), floor)
    decreases |a|, 1
  {
    if a == [] {
      assert a + (old_ + rest) == old_ + rest && a + (new_ + rest) == new_ + rest;
    } else {
      assert (a + (old_ + rest))[1..] == a[1..] + (old_ + rest);
      assert (a + (new_ + rest))[1..] == a[1..] + (new_ + rest);
      ReplaceInTiles(a[1..], old_, new_, rest, a[0].base, a[0].End(), false);
    }
  }

  lemma {:induction false} ReplaceInTiles(a: seq<Seg>, old_: seq<Seg>, new_: seq<Seg>, rest: seq<Seg>,
                                          at: nat, limit: nat, afterFree: bool)
    requires Swappable(old_, new_, rest)
    requires Tiles(a + (old_ + rest), at, limit, afterFree)
    ensures Tiles(a + (new_ + rest), at, limit, afterFree)
    decreases |a|, 2
  {
    if a == [] {
      assert a + (old_ + rest) == old_ + rest && a + (new_ + rest) == new_ + rest;
    } else if at == limit {
      ReplaceInArena(a, old_, new_, rest, limit);
    } else {
      assert (a + (old_ + rest))[1..] == a[1..] + (old_ + rest);
      assert (a + (new_ + rest))[1..] == a[1..] + (new_ + rest);
      ReplaceInTiles(a[1..], old_, new_, rest, a[0].End(), limit, a[0].IsFree());
    }
  }

  /** One unfolding of `Tiles` and `Arena` at a queue built from its head. */
  lemma {:induction false} TilesCons(s: Seg, rest: seq<Seg>)
    ensures forall at: nat, limit: nat, afterFree: bool ::
              Tiles([s] + rest, at, limit, afterFree) ==
              if at == limit then Arena([s] + rest, limit)
              else !s.IsSpan() && s.base == at && 0 < s.size && s.End() <= limit
                   && !(afterFree && s.IsFree()) && Tiles(rest, s.End(), limit, s.IsFree())
    ensures forall floor: nat ::
              Arena([s] + rest, floor) ==
              (s.IsSpan() && floor <= s.base && 0 < s.size && Tiles(rest, s.base, s.End(), false))
  {
    assert ([s] + rest)[1..] == rest;
  }

  // ------------------------------------------------- splitting a free segment

  /** What remains of free segment `f` around an allocation of `[addr, addr+size)`. */
  function Pieces(f: Seg, addr: nat, size: nat): (r: seq<Seg>)
    requires f.base <= addr && addr + size <= f.End()
  {
    (if f.base < addr then [Seg(Free, f.base, addr - f.base)] else [])
    + ([Seg(Allocated, addr, size)]
       + (if addr + size < f.End() then [Seg(Free, addr + size, f.End() - (addr + size))] else []))
  }

  ghost predicate CanHold(f: Seg, addr: nat, size: nat) {
    f.IsFree() && f.base <= addr && 0 < size && addr + size <= f.End()
  }

  function Split(q: seq<Seg>, i: nat, addr: nat, size: nat): seq<Seg>
    requires i < |q| && CanHold(q[i], addr, size)
  {
    q[..i] + (Pieces(q[i], addr, size) + q[i + 1..])
  }

  lemma {:induction false} PiecesSwappable(f: Seg, addr: nat, size: nat, rest: seq<Seg>)
    requires CanHold(f, addr, size)
    ensures Swappable([f], Pieces(f, addr, size), rest)
  {
    var l := Seg(Free, f.base, addr - f.base);
    var a := Seg(Allocated, addr, size);
    var r := Seg(Free, addr + size, f.End() - (addr + size));
    var tail := if addr + size < f.End() then [r] + rest else rest;
    TilesCons(f, rest);
    TilesCons(r, rest);
    TilesCons(a, tail);
    TilesCons(l, [a] + tail);
    assert Pieces(f, addr, size) + rest == if f.base < addr then [l] + ([a] + tail) else [a] + tail;
    FreeAfterFree(rest);
  }

  /** After a free segment nothing is lost by forgetting that it was free. */
  lemma {:induction false} FreeAfterFree(rest: seq<Seg>)
    ensures forall at: nat, limit: nat :: Tiles(rest, at, limit, true) ==> Tiles(rest, at, limit, false)
  {
  }

  /** Splitting keeps the queue well formed, adds exactly one live allocation and
      leaves the spans alone. */
  lemma {:induction false} SplitKeeps(q: seq<Seg>, i: nat, addr: nat, size: nat, floor: nat)
    requires Arena(q, floor) && i < |q| && CanHold(q[i], addr, size)
    ensures Arena(Split(q, i, addr, size), floor)
    ensures Live(Split(q, i, addr, size)) == Live(q) + {Seg(Allocated, addr, size)}
    ensures Spans(Split(q, i, addr, size)) == Spans(q)
    ensures Used(Split(q, i, addr, size)) == Used(q) + size
  {
    var rest := q[i + 1..];
    var ps := Pieces(q[i], addr, size);
    assert q == q[..i] + ([q[i]] + rest);
    PiecesSwappable(q[i], addr, size, rest);
    ReplaceInArena(q[..i], [q[i]], ps, rest, floor);
    Sums(q[..i], [q[i]] + rest);
    Sums([q[i]], rest);
    Sums(q[..i], ps + rest);
    Sums(ps, rest);
    PiecesSums(q[i], addr, size);
  }

  lemma {:induction false} PiecesSums(f: Seg, addr: nat, size: nat)
    requires CanHold(f, addr, size)
    ensures Used(Pieces(f, addr, size)) == size && Spans(Pieces(f, addr, size)) == []
    ensures Used([f]) == 0 && Spans([f]) == []
    ensures Live(Pieces(f, addr, size)) == {Seg(Allocated, addr, size)} && Live([f]) == {}
  {
    var a := Seg(Allocated, addr, size);
    var hd := if f.base < addr then [Seg(Free, f.base, addr - f.base)] else [];
    var tl := if addr + size < f.End() then [Seg(Free, addr + size, f.End() - (addr + size))] else [];
    FreeOnly(hd);
    FreeOnly(tl);
    FreeOnly([f]);
    Sums([a], tl);
    Sums(hd, [a] + tl);
    assert [a][1..] == [];
    assert Live([a]) == {a};
  }

  /** `Used`, `Spans` and `Live` of a concatenation. */
  lemma {:induction false} Sums(a: seq<Seg>, b: seq<Seg>)
    ensures Used(a + b) == Used(a) + Used(b)
    ensures Spans(a + b) == Spans(a) + Spans(b)
    ensures Live(a + b) == Live(a) + Live(b)
  {
    if a == [] {
      assert a + b == b;
    } else {
      Sums(a[1..], b);
      assert (a + b)[1..] == a[1..] + b;
      assert a == [a[0]] + a[1..];
    }
  }

  // ------------------------------------------------- freeing with coalescing

  function FirstMerged(q: seq<Seg>, i: nat): (lo: nat)
    requires 0 < i < |q|
    ensures lo <= i
  {
    if q[i - 1].IsFree() then i - 1 else i
  }

  function AfterMerged(q: seq<Seg>, i: nat): (hi: nat)
    requires i < |q|
    ensures i < hi <= |q|
  {
    if i + 1 < |q| && q[i + 1].IsFree() then i + 2 else i + 1
  }

  function SizeOf(q: seq<Seg>): nat {
    if q == [] then 0 else q[0].size + SizeOf(q[1..])
  }

  /** Segment `i` becomes free, merged with a free left and a free right neighbour. */
  function Coalesce(q: seq<Seg>, i: nat): seq<Seg>
    requires 0 < i < |q|
  {
    var lo := FirstMerged(q, i);
    var hi := AfterMerged(q, i);
    q[..lo] + ([Seg(Free, q[lo].base, SizeOf(q[lo..hi]))] + q[hi..])
  }

  lemma {:induction false} MergeSwappable(l: Seg, a: Seg, right: seq<Seg>, rest: seq<Seg>)
    requires a.IsAllocated()
    requires right == [] || (|right| == 1 && right[0].IsFree())
    requires right == [] ==> rest == [] || !rest[0].IsFree()
    ensures l.IsFree() ==>
              Swappable([l, a] + right, [Seg(Free, l.base, l.size + a.size + SizeOf(right))], rest)
    ensures !l.IsFree() ==>
              Swappable([l, a] + right, [l, Seg(Free, a.base, a.size + SizeOf(right))], rest)
  {
    var merged := if l.IsFree() then Seg(Free, l.base, l.size + a.size + SizeOf(right))
                  else Seg(Free, a.base, a.size + SizeOf(right));
    TilesCons(merged, rest);
    TilesCons(l, [merged] + rest);
    assert [l, merged] + rest == [l] + ([merged] + rest);
    TilesCons(a, right + rest);
    TilesCons(l, [a] + (right + rest));
    assert ([l, a] + right) + rest == [l] + ([a] + (right + rest));
    if right == [] {
      assert right + rest == rest;
      NotFreeNext(rest);
    } else {
      TilesCons(right[0], rest);
      assert SizeOf(right) == right[0].size + SizeOf(right[1..]) == right[0].size;
      assert right + rest == [right[0]] + rest;
    }
  }

  lemma {:induction false} NotFreeNext(rest: seq<Seg>)
    requires rest == [] || !rest[0].IsFree()
    ensures forall at: nat, limit: nat, b: bool, c: bool :: Tiles(rest, at, limit, b) ==> Tiles(rest, at, limit, c)
  {
  }

  /** Freeing keeps the queue well formed, removes exactly one live allocation and
      leaves the spans alone. */
  lemma {:induction false} CoalesceKeeps(q: seq<Seg>, i: nat, floor: nat)
    requires Arena(q, floor) && 0 < i < |q| && q[i].IsAllocated()
    ensures Arena(Coalesce(q, i), floor)
    ensures Live(Coalesce(q, i)) == Live(q) - {q[i]}
    ensures Spans(Coalesce(q, i)) == Spans(q)
    ensures Used(Coalesce(q, i)) == Used(q) - q[i].size
  {
    var lo, hi := FirstMerged(q, i), AfterMerged(q, i);
    var right, rest, pre := q[i + 1..hi], q[hi..], q[..i - 1];
    var merged := Seg(Free, q[lo].base, SizeOf(q[lo..hi]));
    var new_ := if lo < i then [merged] else [q[i - 1], merged];
    assert q == pre + (([q[i - 1], q[i]] + right) + rest);
    assert Coalesce(q, i) == pre + (new_ + rest);
    MergedSize(q, i);
    MergeSwappable(q[i - 1], q[i], right, rest);
    ReplaceInArena(pre, [q[i - 1], q[i]] + right, new_, rest, floor);
    CoalesceSums(q, i, floor);
  }

  lemma {:induction false} MergedSize(q: seq<Seg>, i: nat)
    requires 0 < i < |q|
    ensures var lo, hi := FirstMerged(q, i), AfterMerged(q, i);
            SizeOf(q[lo..hi]) == (if lo < i then q[lo].size else 0) + q[i].size + SizeOf(q[i + 1..hi])
  {
    var lo, hi := FirstMerged(q, i), AfterMerged(q, i);
    assert q[i..hi][1..] == q[i + 1..hi];
    if lo < i {
      assert q[lo..hi][1..] == q[i..hi];
    }
  }

  /** `Used`, `Spans` and `Live` with one segment between free ones. */
  lemma {:induction false} SumsAround(l: seq<Seg>, a: Seg, r: seq<Seg>)
    requires forall s :: s in l || s in r ==> s.IsFree()
    requires a.IsAllocated()
    ensures var q := l + ([a] + r); Used(q) == a.size && Spans(q) == [] && Live(q) == {a}
  {
    Sums(l, [a] + r);
    Sums([a], r);
    FreeOnly(l);
    FreeOnly(r);
    assert [a][1..] == [];
    assert Live([a]) == {a};
  }

  lemma {:induction false} SumsReplaced(pre: seq<Seg>, mid: seq<Seg>, mid': seq<Seg>, post: seq<Seg>, a: Seg)
    requires Used(mid) == a.size && Spans(mid) == [] && Live(mid) == {a}
    requires Used(mid') == 0 && Spans(mid') == [] && Live(mid') == {}
    requires a !in pre && a !in post
    ensures var q, r := pre + (mid + post), pre + (mid' + post);
            Used(r) == Used(q) - a.size && Spans(r) == Spans(q) && Live(r) == Live(q) - {a}
  {
    Sums(pre, mid + post);
    Sums(mid, post);
    Sums(pre, mid' + post);
    Sums(mid', post);
  }

  lemma {:induction false} CoalesceSums(q: seq<Seg>, i: nat, floor: nat)
    requires Arena(q, floor) && 0 < i < |q| && q[i].IsAllocated()
    ensures Live(Coalesce(q, i)) == Live(q) - {q[i]}
    ensures Spans(Coalesce(q, i)) == Spans(q)
    ensures Used(Coalesce(q, i)) == Used(q) - q[i].size
  {
    var lo, hi := FirstMerged(q, i), AfterMerged(q, i);
    var merged := Seg(Free, q[lo].base, SizeOf(q[lo..hi]));
    assert q[lo..hi] == q[lo..i] + ([q[i]] + q[i + 1..hi]);
    SumsAround(q[lo..i], q[i], q[i + 1..hi]);
    FreeOnly([merged]);
    OnceOnly(q, i, floor);
    assert q == q[..lo] + (q[lo..hi] + q[hi..]);
    SumsReplaced(q[..lo], q[lo..hi], [merged], q[hi..], q[i]);
  }

  lemma {:induction false} FreeOnly(a: seq<Seg>)
    requires forall s :: s in a ==> s.IsFree()
    ensures Used(a) == 0 && Spans(a) == [] && Live(a) == {}
  {
    if a != [] {
      assert a[0] in a;
      FreeOnly(a[1..]);
    }
  }

  /** The segments of a well-formed queue that are no span markers stand in
      address order and do not overlap. */
  lemma {:induction false} InOrder(q: seq<Seg>, i: nat, k: nat, floor: nat)
    requires Arena(q, floor) && i < k < |q| && !q[i].IsSpan() && !q[k].IsSpan()
    ensures q[i].End() <= q[k].base && 0 < q[i].size && 0 < q[k].size
    decreases |q|, 1
  {
    InOrderTiles(q[1..], i - 1, k - 1, q[0].base, q[0].End(), false);
  }

  lemma {:induction false} InOrderTiles(q: seq<Seg>, i: nat, k: nat, at: nat, limit: nat, afterFree: bool)
    requires Tiles(q, at, limit, afterFree) && i < k < |q| && !q[i].IsSpan() && !q[k].IsSpan()
    ensures q[i].End() <= q[k].base && 0 < q[i].size && 0 < q[k].size
    decreases |q|, 2
  {
    if at == limit {
      InOrder(q, i, k, limit);
    } else if 0 < i {
      InOrderTiles(q[1..], i - 1, k - 1, q[0].End(), limit, q[0].IsFree());
    } else {
      TilesBases(q[1..], q[0].End(), limit, q[0].IsFree());
      assert q[k] == q[1..][k - 1];
    }
  }

  /** A segment that is no span marker appears once, and no other has its base. */
  lemma {:induction false} OnceOnly(q: seq<Seg>, i: nat, floor: nat)
    requires Arena(q, floor) && i < |q| && !q[i].IsSpan()
    ensures forall k :: 0 <= k < |q| && k != i && !q[k].IsSpan() ==> q[k].base != q[i].base
  {
    forall k | 0 <= k < |q| && k != i && !q[k].IsSpan() ensures q[k].base != q[i].base {
      if k < i {
        InOrder(q, k, i, floor);
      } else {
        InOrder(q, i, k, floor);
      }
    }
  }

  /** No live allocation starts inside a free segment. */
  lemma {:induction false} FreeHoldsNoLive(q: seq<Seg>, i: nat, floor: nat)
    requires Arena(q, floor) && i < |q| && q[i].IsFree()
    ensures forall a :: a in Live(q) ==> a.End() <= q[i].base || q[i].End() <= a.base
  {
    forall a | a in Live(q) ensures a.End() <= q[i].base || q[i].End() <= a.base {
      var k :| 0 <= k < |q| && q[k] == a;
      if k < i {
        InOrder(q, k, i, floor);
      } else {
        InOrder(q, i, k, floor);
      }
    }
  }

  // -------------------------------------------------------------- new spans

  function WithSpan(q: seq<Seg>, p: nat, base: nat, size: nat): seq<Seg>
    requires p <= |q|
  {
    q[..p] + ([Seg(Span, base, size), Seg(Free, base, size)] + q[p..])
  }

  /** `[base, base+size)` goes at position `p`: every span marker before `p` ends
      by `base`, and position `p` holds the end of the queue or a higher span. */
  ghost predicate SpanFits(q: seq<Seg>, p: nat, base: nat, size: nat) {
    && p <= |q|
    && (p < |q| ==> q[p].IsSpan() && base + size <= q[p].base)
    && (forall k :: 0 <= k < p && q[k].IsSpan() ==> q[k].End() <= base)
  }

  lemma {:induction false} WithSpanArena(q: seq<Seg>, p: nat, base: nat, size: nat, floor: nat)
    requires Arena(q, floor) && SpanFits(q, p, base, size) && 0 < size && floor <= base
    ensures Arena(WithSpan(q, p, base, size), floor)
    decreases |q|, 1
  {
    var r := WithSpan(q, p, base, size);
    if p == 0 {
      var s, f := Seg(Span, base, size), Seg(Free, base, size);
      assert r == [s] + ([f] + q);
      TilesCons(s, [f] + q);
      TilesCons(f, q);
      assert Arena(q, base + size);
    } else {
      assert r[1..] == WithSpan(q[1..], p - 1, base, size);
      assert forall k :: 0 <= k < |q| - 1 ==> q[1..][k] == q[k + 1];
      WithSpanTiles(q[1..], p - 1, base, size, q[0].base, q[0].End(), false);
    }
  }

  lemma {:induction false} WithSpanTiles(q: seq<Seg>, p: nat, base: nat, size: nat,
                                         at: nat, limit: nat, afterFree: bool)
    requires Tiles(q, at, limit, afterFree) && SpanFits(q, p, base, size) && 0 < size && limit <= base
    ensures Tiles(WithSpan(q, p, base, size), at, limit, afterFree)
    decreases |q|, 2
  {
    var r := WithSpan(q, p, base, size);
    if at == limit {
      WithSpanArena(q, p, base, size, limit);
    } else {
      assert 0 < p;
      assert r[1..] == WithSpan(q[1..], p - 1, base, size);
      assert forall k :: 0 <= k < |q| - 1 ==> q[1..][k] == q[k + 1];
      WithSpanTiles(q[1..], p - 1, base, size, q[0].End(), limit, q[0].IsFree());
    }
  }

  /** Adding a span keeps the queue well formed and adds nothing but that span. */
  lemma {:induction false} WithSpanKeeps(q: seq<Seg>, p: nat, base: nat, size: nat)
    requires Arena(q, 0) && SpanFits(q, p, base, size) && 0 < size
    ensures Arena(WithSpan(q, p, base, size), 0)
    ensures Live(WithSpan(q, p, base, size)) == Live(q) && Used(WithSpan(q, p, base, size)) == Used(q)
    ensures Spans(WithSpan(q, p, base, size)) == Spans(q[..p]) + [Seg(Span, base, size)] + Spans(q[p..])
    ensures Spans(q) == Spans(q[..p]) + Spans(q[p..])
  {
    WithSpanArena(q, p, base, size, 0);
    var two := [Seg(Span, base, size), Seg(Free, base, size)];
    assert q == q[..p] + q[p..];
    Sums(q[..p], q[p..]);
    Sums(q[..p], two + q[p..]);
    Sums(two, q[p..]);
    assert two[1..] == [Seg(Free, base, size)];
    FreeOnly(two[1..]);
  }

  lemma {:induction false} TilesHead(q: seq<Seg>, at: nat, limit: nat, afterFree: bool)
    requires Tiles(q, at, limit, afterFree) && q != [] && !q[0].IsSpan()
    ensures q[0].base == at
  {
  }

  /** Neighbouring segments of one span meet. */
  lemma {:induction false} NeighboursMeet(q: seq<Seg>, i: nat, floor: nat)
    requires Arena(q, floor) && i + 1 < |q| && !q[i].IsSpan() && !q[i + 1].IsSpan()
    ensures q[i].End() == q[i + 1].base
    decreases |q|, 1
  {
    NeighboursMeetTiles(q[1..], i - 1, q[0].base, q[0].End(), false);
  }

  lemma {:induction false} NeighboursMeetTiles(q: seq<Seg>, i: nat, at: nat, limit: nat, afterFree: bool)
    requires Tiles(q, at, limit, afterFree) && i + 1 < |q| && !q[i].IsSpan() && !q[i + 1].IsSpan()
    ensures q[i].End() == q[i + 1].base
    decreases |q|, 2
  {
    if at == limit {
      NeighboursMeet(q, i, limit);
    } else if 0 < i {
      NeighboursMeetTiles(q[1..], i - 1, q[0].End(), limit, q[0].IsFree());
    } else {
      assert q[1..][0] == q[1];
      TilesHead(q[1..], q[0].End(), limit, q[0].IsFree());
    }
  }
}
