/**
  The page-table code as the kernel writes it, changing tables and counts in place:
  each method makes the change its specification in `PageTables` says.
 */
module PageTableWalker {
  import opened PageTables
  import opened Options
  import opened PageTableCounts

  /** A wiring that goes on below the tables in `top`. */
  function Under(top: seq<Tid>, w: Wiring): Wiring {
    match w
    case Wired(s, pages) => Wired(s, top + pages)
    case Missing(s, pages, level) => Missing(s, top + pages, level)
    case NeedsPageIn(s, pages) => NeedsPageIn(s, top + pages)
  }

  lemma {:induction false} UnderIs(top: seq<Tid>, w: Wiring)
    ensures var u := Under(top, w);
            && u.s == w.s && u.pages == top + w.pages && (u.Wired? <==> w.Wired?) && (u.Missing? <==> w.Missing?)
            && (u.Missing? ==> u.level == w.level) && (top == [] ==> u == w)
  {
  }

  lemma {:induction false} UnderAbove(top: seq<Tid>, d: Tid, w: Wiring)
    ensures Under(top, Above(d, w)) == Under(top + [d], w)
  {
    assert top + ([d] + w.pages) == (top + [d]) + w.pages;
  }

  /** Releasing from the lowest table up, one table less to go. */
  lemma {:induction false} ReleaseLast(s: Space, pages: seq<Tid>, x: Tid)
    ensures Release(s, pages + [x]) == Release(if x in s.tables then PteDeleted(s, x) else s, pages)
    decreases |pages|
  {
    if pages == [] {
      assert ([] + [x])[1..] == [];
    } else {
      assert (pages + [x])[1..] == pages[1..] + [x];
      ReleaseLast(s, pages[1..], x);
    }
  }

  class AddressSpace {
    var root: Tid
    var tables: map<Tid, Table>

    function View(): Space
      reads this
    {
      Space(root, tables)
    }

    constructor (root: Tid)
      ensures View().root == root && Consistent(View(), map[], None)
    {
      this.root := root;
      tables := map[root := Table(LEVELS, 0, 0, 0, None, map[])];
      new;
      assert tables[root].entries.Keys == {} && InCore(tables[root].entries) == {};
    }

    /** `vmp_pagetable_page_noswap_pte_created`. */
    method NoteCreated(t: Tid)
      requires t in tables
      modifies this`tables
      ensures View() == NoswapCreated(old(View()), t)
    {
      var tab := tables[t];
      tables := tables[t := tab.(nonzero := tab.nonzero + 1, noswap := tab.noswap + 1, refcnt := tab.refcnt + 1)];
    }

    /** `vmp_pagetable_page_pte_deleted`. */
    method NoteDeleted(t: Tid)
      requires t in tables
      modifies this`tables
      ensures View() == PteDeleted(old(View()), t)
      decreases LEVELS - tables[t].level
    {
      var tab := tables[t];
      if tab.nonzero == 1 && t != root && HasDir(View(), t) {
        var Slot(d, i) := tab.parent.value;
        tables := tables[t := tab.(nonzero := 0)];
        tables := tables[d := tables[d].(entries := tables[d].entries - {i})];
        NoteDeleted(d);
        if t in tables && tables[t].refcnt != 1 {
          tables := tables[t := tables[t].(noswap := 0, parent := None, refcnt := tables[t].refcnt - 1)];
        } else {
          tables := tables - {t};
        }
      } else {
        if tab.noswap == 1 && t != root && HasDir(View(), t) {
          var Slot(d, i) := tab.parent.value;
          tables := tables[d := tables[d].(entries := tables[d].entries[i := ToTable(t, true)])];
        }
        tables := tables[t := tab.(nonzero := tab.nonzero - 1, noswap := tab.noswap - 1, refcnt := tab.refcnt - 1)];
      }
    }

    /** `vmp_pte_wire_state_release`. */
    method ReleaseWiring(pages: seq<Tid>)
      modifies this`tables
      ensures View() == Release(old(View()), pages)
    {
      var n := |pages|;
      assert pages[..n] == pages;
      while 0 < n
        invariant 0 <= n <= |pages| && Release(View(), pages[..n]) == Release(old(View()), pages)
      {
        assert pages[..n] == pages[..n - 1] + [pages[n - 1]];
        ReleaseLast(View(), pages[..n - 1], pages[n - 1]);
        if pages[n - 1] in tables {
          NoteDeleted(pages[n - 1]);
        }
        n := n - 1;
      }
    }

    /** The case of a missing table that is made. */
    method EnterNew(d: Tid, i: nat, t: Tid)
      requires d in tables
      modifies this`tables
      ensures View() == WireNew(old(View()), d, i, t) && d in tables && t in tables
    {
      var level := if tables[d].level == 0 then 0 else tables[d].level - 1;
      tables := tables[t := Table(level, 1, 1, 1, Some(Slot(d, i)), map[])];
      tables := tables[d := tables[d].(entries := tables[d].entries[i := ToTable(t, false)])];
      NoteCreated(d);
    }

    /** The cases of a valid table and of one in transition. */
    method EnterExisting(d: Tid, i: nat, t: Tid, trans: bool)
      requires d in tables && t in tables
      modifies this`tables
      ensures View() == WireExisting(old(View()), d, i, t, trans) && t in tables
    {
      NoteCreated(t);
      if trans {
        tables := tables[d := tables[d].(entries := tables[d].entries[i := ToTable(t, false)])];
      }
    }

    /** `vmp_wire_pte`: `r` is 0 and the tables are wired, or minus the level at which an
        entry is missing and nothing is; 1 stands for a table that has to be paged in. */
    method WirePte(va: nat, create: bool, frames: seq<Tid>) returns (r: int, pages: seq<Tid>)
      requires root in tables
      modifies this`tables
      ensures var w := Wire(old(View()), va, create, frames);
              && View() == w.s && pages == w.pages
              && r == (match w case Wired(_, _) => 0 case Missing(_, _, level) => 0 - level case NeedsPageIn(_, _) => 1)
    {
      hide Index, Descend, WireNew, WireExisting, Release, Under;
      ghost var s0 := View();
      ghost var w := Descend(NoswapCreated(s0, root), root, LEVELS, va, create, frames);
      var d, level, used := root, LEVELS, 0;
      pages := [];
      NoteCreated(root);
      assert frames[0..] == frames;
      UnderIs([], w);
      while 1 < level
        invariant 1 <= level <= LEVELS && used <= |frames| && d in tables && root == s0.root
        invariant w == Under(pages, Descend(View(), d, level, va, create, frames[used..]))
        decreases level
      {
        var i := Index(va, level);
        DescendIs(View(), d, level, va, create, frames[used..]);
        UnderIs(pages, Descend(View(), d, level, va, create, frames[used..]));
        if i !in tables[d].entries {
          if !create || used == |frames| {
            pages := pages + [d];
            ReleaseWiring(pages);
            return -level, [];
          }
          var t := frames[used];
          assert frames[used..][0] == t && frames[used..][1..] == frames[used + 1..];
          EnterNew(d, i, t);
          UnderAbove(pages, d, Descend(View(), t, level - 1, va, create, frames[used + 1..]));
          pages, d, level, used := pages + [d], t, level - 1, used + 1;
        } else if tables[d].entries[i].ToTable? && tables[d].entries[i].t in tables {
          var ToTable(t, trans) := tables[d].entries[i];
          EnterExisting(d, i, t, trans);
          UnderAbove(pages, d, Descend(View(), t, level - 1, va, create, frames[used..]));
          pages, d, level := pages + [d], t, level - 1;
        } else {
          return 1, pages + [d];
        }
      }
      DescendEnd(View(), d, va, create, frames[used..]);
      UnderIs(pages, Wired(View(), [d]));
      pages := pages + [d];
      r := 0;
    }
  }
}
