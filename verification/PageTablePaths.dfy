/**
  What a wiring answers when it may create tables, and that every page has a page-table
  entry of its own.
 */
module PageTablePaths {
  import opened Numbers
  import opened PageTables
  import opened PageTableCounts
  import opened Queues
  import opened RangeWalk

  // --------------------------------------------------------------- creating tables

  lemma {:induction false} NewTables(s: Space, d: Tid, i: nat, t: Tid)
    requires d in s.tables && t !in s.tables
    ensures WireNew(s, d, i, t).tables.Keys == s.tables.Keys + {t}
    ensures WireNew(s, d, i, t).tables[t].entries == map[]
  {
  }

  lemma {:induction false} EmptyLookup(s: Space, t: Tid, level: nat, va: nat)
    requires t in s.tables && s.tables[t].entries == map[]
    ensures Lookup(s, t, level, va) == if level <= 1 then Leaf(t) else Absent(level)
  {
  }

  lemma {:induction false} TailFresh(s: Space, t: Tid, s': Space, frames: seq<Tid>)
    requires Distinct(frames) && frames != [] && t == frames[0] && s'.tables.Keys == s.tables.Keys + {t}
    requires forall f :: f in frames ==> f !in s.tables
    ensures Distinct(frames[1..]) && forall f :: f in frames[1..] ==> f !in s'.tables
  {
    TailOf(frames);
    assert forall x :: x in s'.tables ==> x in s'.tables.Keys;
  }

  /** The answer of a wiring, by what is there and how many frames there are: a table
      missing at level `l` takes `l - 1` new ones. */
  predicate Answers(w: Wiring, found: Outcome, create: bool, frames: seq<Tid>) {
    w.pages != [] &&
    match found
    case Leaf(t) => w.Wired? && Last(w.pages) == t
    case Absent(l) =>
      1 < l &&
      if create && l - 1 <= |frames| then w.Wired? && Last(w.pages) == frames[l - 2]
      else w.Missing? && w.level == l - (if create then |frames| else 0)
    case PagedOut => w.NeedsPageIn?
  }

  lemma {:induction false} AboveAnswers(d: Tid, w: Wiring, found: Outcome, create: bool, frames: seq<Tid>)
    requires Answers(w, found, create, frames)
    ensures Answers(Above(d, w), found, create, frames)
  {
  }

  /** One table more was missing, and one frame more was there. */
  lemma {:induction false} NewAnswers(d: Tid, w: Wiring, t: Tid, level: nat, frames: seq<Tid>)
    requires frames != [] && t == frames[0] && 1 < level
    requires Answers(w, if level - 1 <= 1 then Leaf(t) else Absent(level - 1), true, frames[1..])
    ensures Answers(Above(d, w), Absent(level), true, frames)
  {
  }

  lemma {:induction false} DescendAnswers(s: Space, d: Tid, level: nat, va: nat, create: bool, frames: seq<Tid>)
    requires d in s.tables && 0 < level && Distinct(frames) && forall f :: f in frames ==> f !in s.tables
    ensures Answers(Descend(s, d, level, va, create, frames), Lookup(s, d, level, va), create, frames)
    decreases level
  {
    hide WireExisting, WireNew, Index;
    if level == 1 {
      DescendEnd(s, d, va, create, frames);
    } else {
      DescendIs(s, d, level, va, create, frames);
      hide Descend, Answers;
      var i := Index(va, level);
      if i in s.tables[d].entries {
        if s.tables[d].entries[i].ToTable? && s.tables[d].entries[i].t in s.tables {
          var ToTable(t, trans) := s.tables[d].entries[i];
          var s1 := WireExisting(s, d, i, t, trans);
          ExistingShape(s, d, i, t, trans);
          ShapeLookup(s, s1, t, level - 1, va);
          ShapeTables(s, s1);
          hide SameShape;
          DescendAnswers(s1, t, level - 1, va, create, frames);
          AboveAnswers(d, Descend(s1, t, level - 1, va, create, frames), Lookup(s, d, level, va), create, frames);
        } else {
          StopAnswers(NeedsPageIn(s, [d]), PagedOut, create, frames);
        }
      } else if create && frames != [] {
        var t := frames[0];
        var s1 := WireNew(s, d, i, t);
        NewTables(s, d, i, t);
        TailFresh(s, t, s1, frames);
        assert t in s1.tables.Keys;
        EmptyLookup(s1, t, level - 1, va);
        DescendAnswers(s1, t, level - 1, va, create, frames[1..]);
        NewAnswers(d, Descend(s1, t, level - 1, va, create, frames[1..]), t, level, frames);
      } else {
        StopAnswers(Missing(s, [d], level), Absent(level), create, frames);
      }
    }
  }

  lemma {:induction false} ShapeTables(s: Space, s': Space)
    requires SameShape(s, s')
    ensures forall f :: f in s'.tables <==> f in s.tables
  {
    assert forall f :: f in s'.tables <==> f in s'.tables.Keys;
  }

  lemma {:induction false} StopAnswers(w: Wiring, found: Outcome, create: bool, frames: seq<Tid>)
    requires w.pages != []
    requires (w.NeedsPageIn? && found.PagedOut?)
             || (w.Missing? && found.Absent? && w.level == found.level && 1 < w.level && !(create && frames != []))
    ensures Answers(w, found, create, frames)
  {
  }

  /** A wiring finds the leaf table that is there; where one is missing it creates what is
      missing if it may and the frames suffice, ends at the last one created, and otherwise
      answers with the level it could not fill; it asks for page-in exactly where a lookup
      meets a table that is out. */
  lemma {:induction false} WireAnswers(s: Space, va: nat, create: bool, frames: seq<Tid>)
    requires s.root in s.tables && Distinct(frames) && forall f :: f in frames ==> f !in s.tables
    ensures var w := Wire(s, va, create, frames);
            match Lookup(s, s.root, LEVELS, va)
            case Leaf(t) => w.Wired? && w.pages != [] && Last(w.pages) == t
            case Absent(l) =>
              1 < l &&
              if create && l - 1 <= |frames| then w.Wired? && w.pages != [] && Last(w.pages) == frames[l - 2]
              else w.Missing? && w.level == l - (if create then |frames| else 0)
            case PagedOut => w.NeedsPageIn?
  {
    RootShape(s);
    ShapeTables(s, NoswapCreated(s, s.root));
    ShapeLookup(s, NoswapCreated(s, s.root), s.root, LEVELS, va);
    hide SameShape, Descend, Lookup, Release, NoswapCreated;
    DescendAnswers(NoswapCreated(s, s.root), s.root, LEVELS, va, create, frames);
  }

  // ------------------------------------------------------------- one page, one entry

  lemma {:induction false} IndexIs(a: nat, level: nat)
    requires 0 < level
    ensures 0 < Span(level) && Index(a, level) == a / Span(level) % ENTRIES
  {
  }

  lemma {:induction false} SameIndex(a: nat, b: nat, level: nat)
    requires 0 < level && a / Span(level + 1) == b / Span(level + 1) && Index(a, level) == Index(b, level)
    ensures a / Span(level) == b / Span(level)
  {
    hide Span, Index;
    IndexIs(a, level);
    IndexIs(b, level);
    SpanNext(level);
    DivDiv(a, Span(level), ENTRIES);
    DivDiv(b, Span(level), ENTRIES);
    DivModSame(a / Span(level), b / Span(level));
  }

  lemma {:induction false} DivModSame(x: nat, y: nat)
    requires x / ENTRIES == y / ENTRIES && x % ENTRIES == y % ENTRIES
    ensures x == y
  {
    assert x == ENTRIES * (x / ENTRIES) + x % ENTRIES;
    assert y == ENTRIES * (y / ENTRIES) + y % ENTRIES;
  }

  /** Two addresses of the tables' range are in one page exactly when they have the same
      index at every level. */
  lemma {:induction false} IndexesTell(a: nat, b: nat)
    requires a < Span(LEVELS + 1) && b < Span(LEVELS + 1)
    ensures a / PGSIZE == b / PGSIZE <==> forall l :: 1 <= l <= LEVELS ==> Index(a, l) == Index(b, l)
  {
    hide Index, Span;
    SpanOne();
    if forall l :: 1 <= l <= LEVELS ==> Index(a, l) == Index(b, l) {
      BelowTop(a, LEVELS);
      BelowTop(b, LEVELS);
      SameIndex(a, b, 4);
      SameIndex(a, b, 3);
      SameIndex(a, b, 2);
      SameIndex(a, b, 1);
    }
    if a / PGSIZE == b / PGSIZE {
      forall l | 1 <= l <= LEVELS ensures Index(a, l) == Index(b, l) {
        SameEntry(a, b, 1, l);
        IndexSame(a, b, l);
      }
    }
  }

  lemma {:induction false} BelowTop(a: nat, level: nat)
    requires a < Span(level + 1)
    ensures 0 < Span(level + 1) && a / Span(level + 1) == 0
  {
    hide Span;
    IndexIs(a, level + 1);
    DivUnique(a, Span(level + 1), 0, a);
  }

  lemma {:induction false} IndexSame(a: nat, b: nat, level: nat)
    requires 0 < level && a / Span(level) == b / Span(level)
    ensures Index(a, level) == Index(b, level)
  {
    hide Span, Index;
    IndexIs(a, level);
    IndexIs(b, level);
  }

  lemma {:induction false} SpanOne()
    ensures Span(1) == PGSIZE
  {
    Pow2Adds(6, 6);
    assert Pow2(6) == 64 by { assert Pow2(3) == 8; }
  }

  /** Two walks that end at one table have gone the same way. */
  lemma {:induction false} SameWay(s: Space, d: Tid, e: Tid, level: nat, a: nat, b: nat, t: Tid)
    requires TreeOk(s) && d in s.tables && e in s.tables && 0 < level
    requires Lookup(s, d, level, a) == Leaf(t) && Lookup(s, e, level, b) == Leaf(t)
    ensures d == e && forall l :: 1 < l <= level ==> Index(a, l) == Index(b, l)
    decreases level
  {
    hide Index;
    if 1 < level {
      var i, j := Index(a, level), Index(b, level);
      var d', e' := s.tables[d].entries[i].t, s.tables[e].entries[j].t;
      assert EntryOk(s, d, i, d', s.tables[d].entries[i].trans) && EntryOk(s, e, j, e', s.tables[e].entries[j].trans);
      SameWay(s, d', e', level - 1, a, b, t);
    }
  }

  /** Different pages have different page-table entries. */
  lemma {:induction false} OwnEntry(s: Space, a: nat, b: nat, t: Tid)
    requires TreeOk(s) && a < Span(LEVELS + 1) && b < Span(LEVELS + 1)
    requires Lookup(s, s.root, LEVELS, a) == Leaf(t) && Lookup(s, s.root, LEVELS, b) == Leaf(t)
    requires Index(a, 1) == Index(b, 1)
    ensures a / PGSIZE == b / PGSIZE
  {
    SameWay(s, s.root, s.root, LEVELS, a, b, t);
    hide Index, Lookup, TreeOk;
    IndexesTell(a, b);
  }

  lemma {:induction false} NaiveVisits(s: Space, va: nat, end: nat, i: nat)
    requires s.root in s.tables && va % PGSIZE == 0 && i < |Naive(s, va, end)|
    ensures var v := Naive(s, va, end)[i];
            && va <= v.va < end && v.va % PGSIZE == 0 && Lookup(s, s.root, LEVELS, v.va) == Leaf(v.t)
            && v.idx == Index(v.va, 1)
    ensures forall j :: 0 <= j < i ==> Naive(s, va, end)[j].va < Naive(s, va, end)[i].va
    decreases end - va
  {
    hide Lookup, Index;
    var here := Here(s, va);
    ModPlus(va, PGSIZE);
    if |here| <= i {
      NaiveVisits(s, va + PGSIZE, end, i - |here|);
    }
  }

  /** A walk of the range visits no page-table entry twice. */
  lemma {:induction false} VisitsApart(s: Space, start: nat, end: nat, i: nat, j: nat)
    requires TreeOk(s) && start % PGSIZE == 0 && end <= Span(LEVELS + 1)
    requires i < j < |Naive(s, start, end)|
    ensures var v, w := Naive(s, start, end)[i], Naive(s, start, end)[j]; v.t != w.t || v.idx != w.idx
  {
    NaiveVisits(s, start, end, i);
    NaiveVisits(s, start, end, j);
    hide Naive, Lookup, Index, TreeOk;
    var v, w := Naive(s, start, end)[i], Naive(s, start, end)[j];
    if v.t == w.t && v.idx == w.idx {
      OwnEntry(s, v.va, w.va, v.t);
    }
  }
}
