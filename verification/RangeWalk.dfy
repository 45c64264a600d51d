/**
  Walking the page-table entries of a range of addresses. The kernel skips the whole
  range of a missing table at once and steps along a wired leaf table; the simple way
  is to look up every page.
 */
module RangeWalk {
  import opened Numbers
  import opened PageTables
  import opened PageTableCounts
  import opened PageTableWalker

  const PGSIZE := 4096

  /** The leaf table of an address, the level at which one is missing, or a table that
      would have to be paged in. */
  datatype Outcome = Leaf(t: Tid) | Absent(level: nat) | PagedOut

  function Lookup(s: Space, d: Tid, level: nat, va: nat): Outcome
    requires d in s.tables
    decreases level
  {
    if level <= 1 then Leaf(d)
    else
      var i := Index(va, level);
      if i !in s.tables[d].entries then Absent(level)
      else
        match s.tables[d].entries[i]
        case ToTable(t, _) => if t in s.tables then Lookup(s, t, level - 1, va) else PagedOut
        case _ => PagedOut
  }

  /** The bytes an entry at a level covers. */
  function Span(level: nat): nat
    requires 0 < level
  {
    Pow2(12 + 9 * (level - 1))
  }

  // ------------------------------------------------------- addresses and indexes

  lemma {:induction false} SpanNext(level: nat)
    requires 0 < level
    ensures Span(level + 1) == Span(level) * ENTRIES
  {
    Pow2Adds(9, 12 + 9 * (level - 1));
    assert Pow2(9) == 512;
  }

  lemma {:induction false} DivDiv(a: nat, m: nat, n: nat)
    requires 0 < m && 0 < n
    ensures 0 < m * n && a / (m * n) == a / m / n
  {
    var q, r := a / m, a % m;
    var q2, r2 := q / n, q % n;
    assert a == m * q + r && q == n * q2 + r2;
    assert m * q == m * (n * q2) + m * r2;
    assert m * (n * q2) == (m * n) * q2;
    assert m * r2 + r < m * n by {
      MulMonotone(m, r2 + 1, n);
      assert m * (r2 + 1) == m * r2 + m;
    }
    DivUnique(a, m * n, q2, m * r2 + r);
  }

  /** Addresses under the same entry of a level are under the same entry higher up. */
  lemma {:induction false} SameEntry(a: nat, b: nat, level: nat, up: nat)
    requires 0 < level <= up && a / Span(level) == b / Span(level)
    ensures a / Span(up) == b / Span(up)
    decreases up
  {
    if level < up {
      SameEntry(a, b, level, up - 1);
      SpanNext(up - 1);
      DivDiv(a, Span(up - 1), ENTRIES);
      DivDiv(b, Span(up - 1), ENTRIES);
    }
  }

  /** A missing table is missing for its whole range. */
  lemma {:induction false} AbsentRange(s: Space, d: Tid, level: nat, a: nat, b: nat)
    requires d in s.tables && Lookup(s, d, level, a).Absent?
    requires var l := Lookup(s, d, level, a).level; 0 < l && a / Span(l) == b / Span(l)
    ensures Lookup(s, d, level, b) == Lookup(s, d, level, a) && 1 < Lookup(s, d, level, a).level <= level
    decreases level
  {
    var i, l := Index(a, level), Lookup(s, d, level, a).level;
    LevelIn(s, d, level, a);
    SameEntry(a, b, l, level);
    if i in s.tables[d].entries {
      AbsentRange(s, s.tables[d].entries[i].t, level - 1, a, b);
    }
  }

  lemma {:induction false} LevelIn(s: Space, d: Tid, level: nat, a: nat)
    requires d in s.tables && Lookup(s, d, level, a).Absent?
    ensures 1 < Lookup(s, d, level, a).level <= level
    decreases level
  {
    var i := Index(a, level);
    if i in s.tables[d].entries {
      LevelIn(s, s.tables[d].entries[i].t, level - 1, a);
    }
  }

  /** The addresses of one leaf table all find it. */
  lemma {:induction false} LeafRange(s: Space, d: Tid, level: nat, a: nat, b: nat)
    requires d in s.tables && 0 < level && a / Span(2) == b / Span(2)
    ensures Lookup(s, d, level, b) == Lookup(s, d, level, a)
    decreases level
  {
    if 1 < level {
      SameEntry(a, b, 2, level);
      var i := Index(a, level);
      if i in s.tables[d].entries && s.tables[d].entries[i].ToTable? && s.tables[d].entries[i].t in s.tables {
        LeafRange(s, s.tables[d].entries[i].t, level - 1, a, b);
      }
    }
  }

  /** The next page of the same leaf table has the next entry. */
  lemma {:induction false} NextEntry(a: nat)
    requires a % PGSIZE == 0 && Index(a, 1) + 1 < ENTRIES
    ensures Index(a + PGSIZE, 1) == Index(a, 1) + 1 && (a + PGSIZE) / Span(2) == a / Span(2)
  {
    assert Pow2(12) == PGSIZE by { Pow2Adds(6, 6); assert Pow2(6) == 64; }
    assert Span(1) == PGSIZE;
    SpanNext(1);
    var p := a / PGSIZE;
    assert a == PGSIZE * p;
    DivUnique(a + PGSIZE, PGSIZE, p + 1, 0);
    var q, i := p / ENTRIES, p % ENTRIES;
    assert p == ENTRIES * q + i;
    DivUnique(p + 1, ENTRIES, q, i + 1);
    DivDiv(a, PGSIZE, ENTRIES);
    DivDiv(a + PGSIZE, PGSIZE, ENTRIES);
  }

  // ------------------------------------------------------------- the simple walk

  /** A visit: the page address, and the leaf table and index of its entry. */
  datatype Visit = Visit(va: nat, t: Tid, idx: nat)

  function Here(s: Space, va: nat): seq<Visit>
    requires s.root in s.tables
  {
    var o := Lookup(s, s.root, LEVELS, va);
    if o.Leaf? then [Visit(va, o.t, Index(va, 1))] else []
  }

  /** Look up every page of the range. */
  function Naive(s: Space, va: nat, end: nat): seq<Visit>
    requires s.root in s.tables
    decreases end - va
  {
    if end <= va then [] else Here(s, va) + Naive(s, va + PGSIZE, end)
  }

  /** Pages without a leaf table add nothing. */
  lemma {:induction false} SkipPages(s: Space, va: nat, to: nat, end: nat)
    requires s.root in s.tables && va % PGSIZE == 0 && to % PGSIZE == 0 && va <= to
    requires forall b :: va <= b < to ==> !Lookup(s, s.root, LEVELS, b).Leaf?
    ensures Naive(s, va, end) == Naive(s, to, end)
    decreases (to as int) - va
  {
    if va < to {
      MultipleSum(to, va, PGSIZE);
      MultipleAtLeast(to - va, PGSIZE);
      ModPlus(va, PGSIZE);
      if va < end {
        assert !Lookup(s, s.root, LEVELS, va).Leaf?;
        hide Lookup;
        SkipPages(s, va + PGSIZE, to, end);
      }
    }
  }

  /** From a page whose table is missing at a level, the kernel goes to the next address
      that level's entries start at. */
  lemma {:induction false} SkipTo(s: Space, va: nat, level: nat, end: nat)
    requires s.root in s.tables && va % PGSIZE == 0 && Lookup(s, s.root, LEVELS, va) == Absent(level)
    ensures 1 < level <= LEVELS
    ensures var to := RoundUp(va + 1, Span(level));
            va < to && to % PGSIZE == 0 && Naive(s, va, end) == Naive(s, to, end)
  {
    LevelIn(s, s.root, LEVELS, va);
    var n := Span(level);
    var to := RoundUp(va + 1, n);
    RoundUpAbove(va + 1, n);
    assert n == Pow2(9 * (level - 1)) * PGSIZE by {
      Pow2Adds(9 * (level - 1), 12);
      assert Pow2(12) == PGSIZE by { Pow2Adds(6, 6); assert Pow2(6) == 64; }
    }
    MultipleFactor(to, Pow2(9 * (level - 1)), PGSIZE);
    forall b | va <= b < to ensures !Lookup(s, s.root, LEVELS, b).Leaf? {
      SameBlock(va, b, n);
      AbsentRange(s, s.root, LEVELS, va, b);
    }
    SkipPages(s, va, to, end);
  }

  lemma {:induction false} SameBlock(a: nat, b: nat, n: nat)
    requires 0 < n && a <= b < RoundUp(a + 1, n)
    ensures a / n == b / n
  {
    var q, r := a / n, a % n;
    assert a == n * q + r;
    MultipleMod(q + 1, n);
    assert n * (q + 1) == (q + 1) * n;
    RoundUpLeast(a + 1, n, n * (q + 1));
    assert b - n * q < n;
    DivUnique(b, n, q, b - n * q);
  }

  // ------------------------------------------------- what a wiring finds

  /** The same tables and entries, but for counts and for which are in transition. */
  ghost predicate SameShape(s: Space, s': Space) {
    && s'.root == s.root && s'.tables.Keys == s.tables.Keys
    && (forall x :: x in s.tables ==> s'.tables[x].entries.Keys == s.tables[x].entries.Keys)
    && (forall x, i :: x in s.tables && i in s.tables[x].entries ==>
          var e, e' := s.tables[x].entries[i], s'.tables[x].entries[i];
          if e.ToTable? then e'.ToTable? && e'.t == e.t else e' == e)
  }

  lemma {:induction false} ShapeLookup(s: Space, s': Space, d: Tid, level: nat, va: nat)
    requires SameShape(s, s') && d in s.tables
    ensures Lookup(s', d, level, va) == Lookup(s, d, level, va)
    decreases level
  {
    hide Index;
    if 1 < level {
      var i := Index(va, level);
      if i in s.tables[d].entries && s.tables[d].entries[i].ToTable? && s.tables[d].entries[i].t in s.tables {
        ShapeLookup(s, s', s.tables[d].entries[i].t, level - 1, va);
      }
    }
  }

  lemma {:induction false} ExistingShape(s: Space, d: Tid, i: nat, t: Tid, trans: bool)
    requires d in s.tables && t in s.tables && i in s.tables[d].entries && s.tables[d].entries[i] == ToTable(t, trans)
    ensures SameShape(s, WireExisting(s, d, i, t, trans))
  {
  }

  function Last(pages: seq<Tid>): Tid
    requires pages != []
  {
    pages[|pages| - 1]
  }

  /** A wiring that may not create tables finds what a lookup finds. */
  lemma {:induction false} DescendFinds(s: Space, d: Tid, level: nat, va: nat)
    requires d in s.tables && 0 < level
    ensures var w := Descend(s, d, level, va, false, []);
            w.pages != [] &&
            match Lookup(s, d, level, va)
            case Leaf(t) => w.Wired? && Last(w.pages) == t
            case Absent(l) => w.Missing? && w.level == l
            case PagedOut => w.NeedsPageIn?
    decreases level
  {
    hide WireExisting, Index;
    if level == 1 {
      DescendEnd(s, d, va, false, []);
    } else {
      DescendIs(s, d, level, va, false, []);
      hide Descend;
      var i := Index(va, level);
      if i in s.tables[d].entries && s.tables[d].entries[i].ToTable? && s.tables[d].entries[i].t in s.tables {
        var ToTable(t, trans) := s.tables[d].entries[i];
        ExistingShape(s, d, i, t, trans);
        var s1 := WireExisting(s, d, i, t, trans);
        ShapeLookup(s, s1, t, level - 1, va);
        hide SameShape;
        DescendFinds(s1, t, level - 1, va);
      }
    }
  }

  lemma {:induction false} RootShape(s: Space)
    requires s.root in s.tables
    ensures SameShape(s, NoswapCreated(s, s.root))
  {
  }

  lemma {:induction false} WireFinds(s: Space, va: nat)
    requires s.root in s.tables
    ensures var w := Wire(s, va, false, []);
            match Lookup(s, s.root, LEVELS, va)
            case Leaf(t) => w.Wired? && w.pages != [] && Last(w.pages) == t
            case Absent(l) => w.Missing? && w.level == l
            case PagedOut => w.NeedsPageIn?
  {
    RootShape(s);
    hide SameShape, Descend, Lookup, Release;
    ShapeLookup(s, NoswapCreated(s, s.root), s.root, LEVELS, va);
    DescendFinds(NoswapCreated(s, s.root), s.root, LEVELS, va);
  }

  /** No table is paged out. */
  ghost predicate Resident(s: Space)
    requires s.root in s.tables
  {
    forall va :: !Lookup(s, s.root, LEVELS, va).PagedOut?
  }

  // --------------------------------------------------------------- the kernel's walk

  /** A space whose tables a walk may wire. */
  ghost predicate Walkable(s: Space) {
    && s.root in s.tables && TreeOk(s) && Resident(s)
    && 0 <= s.tables[s.root].nonzero && 0 <= s.tables[s.root].noswap && s.tables[s.root].level == LEVELS
  }

  lemma {:induction false} ReleaseNone(s: Space)
    ensures Release(s, []) == s
  {
  }

  /** Let go of one leaf table and wire that of another address; `r` is 0, or minus the
      level at which it is missing. */
  method Rewire(space: AddressSpace, pages: seq<Tid>, va: nat, ghost s: Space) returns (r: int, next: seq<Tid>)
    requires Walkable(s) && Release(space.View(), pages) == s
    modifies space
    ensures Release(space.View(), next) == s
    ensures match Lookup(s, s.root, LEVELS, va)
            case Leaf(t) => r == 0 && next != [] && Last(next) == t
            case Absent(level) => r == 0 - level && next == [] && r < 0
            case PagedOut => false
  {
    hide Lookup, Wire, Release, TreeOk, Resident;
    space.ReleaseWiring(pages);
    r, next := space.WirePte(va, false, []);
    WireFinds(s, va);
    WireUndone(s, va, false, []);
    AlwaysResident(s, va);
    WireGivesUp(s, va);
    LevelAbove(s, va);
  }

  lemma {:induction false} LevelAbove(s: Space, va: nat)
    requires s.root in s.tables
    ensures Lookup(s, s.root, LEVELS, va).Absent? ==> 1 < Lookup(s, s.root, LEVELS, va).level
  {
    if Lookup(s, s.root, LEVELS, va).Absent? {
      LevelIn(s, s.root, LEVELS, va);
    }
  }

  lemma {:induction false} WireGivesUp(s: Space, va: nat)
    requires s.root in s.tables
    ensures Wire(s, va, false, []).Missing? ==> Wire(s, va, false, []).pages == []
  {
  }

  /** The loop shared by `cow_pages` and `vmp_unmap_range`, visiting entries without
      changing them: it visits, in order and once each, exactly the pages of the range
      that have a leaf table, each with its own entry, and leaves every table as it
      was. */
  method WalkRange(space: AddressSpace, start: nat, end: nat) returns (visited: seq<Visit>)
    requires Walkable(space.View()) && start % PGSIZE == 0
    modifies space
    ensures visited == Naive(old(space.View()), start, end) && space.View() == old(space.View())
  {
    hide Naive, Lookup, Release, Walkable, Index;
    ghost var s := space.View();
    RootOf(s);
    ReleaseNone(s);
    var va, pages := start, [];
    var idx: nat := 0;
    visited := [];
    while va < end
      invariant va % PGSIZE == 0 && visited + Naive(s, va, end) == Naive(s, start, end)
      invariant Release(space.View(), pages) == s
      invariant pages != [] ==>
                  && PGSIZE <= va && Lookup(s, s.root, LEVELS, va - PGSIZE) == Leaf(Last(pages))
                  && idx == Index(va - PGSIZE, 1)
      decreases end - va
    {
      idx := idx + 1;
      if pages == [] || idx == ENTRIES {
        var r;
        r, pages := Rewire(space, pages, va, s);
        if r < 0 {
          SkipTo(s, va, -r, end);
          va := RoundUp(va + 1, Span(-r));
          continue;
        }
        idx := Index(va, 1);
      } else {
        IndexBound(va - PGSIZE);
        NextEntry(va - PGSIZE);
        LeafRange(s, s.root, LEVELS, va - PGSIZE, va);
      }
      NaiveNext(s, va, end, Last(pages));
      visited := visited + [Visit(va, Last(pages), idx)];
      va := va + PGSIZE;
    }
    space.ReleaseWiring(pages);
    NaiveEnd(s, va, end);
  }

  lemma {:induction false} IndexBound(va: nat)
    ensures Index(va, 1) < ENTRIES
  {
  }

  lemma {:induction false} RootOf(s: Space)
    requires Walkable(s)
    ensures s.root in s.tables
  {
  }

  lemma {:induction false} AlwaysResident(s: Space, va: nat)
    requires s.root in s.tables && Resident(s)
    ensures !Lookup(s, s.root, LEVELS, va).PagedOut?
  {
  }

  lemma {:induction false} NaiveNext(s: Space, va: nat, end: nat, t: Tid)
    requires s.root in s.tables && va < end && va % PGSIZE == 0 && Lookup(s, s.root, LEVELS, va) == Leaf(t)
    ensures Naive(s, va, end) == [Visit(va, t, Index(va, 1))] + Naive(s, va + PGSIZE, end)
    ensures (va + PGSIZE) % PGSIZE == 0
  {
    ModPlus(va, PGSIZE);
    hide Lookup;
  }

  lemma {:induction false} NaiveEnd(s: Space, va: nat, end: nat)
    requires s.root in s.tables && end <= va
    ensures Naive(s, va, end) == []
  {
  }
}
