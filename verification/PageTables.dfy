/**
  Page tables of a process and the counts that keep each one alive: how many of its
  entries are nonzero and how many must stay in core, both counting the wirings in
  progress. A table with neither goes away, and takes its directory entry with it.
  Paging tables in from swap is not part of this model, and neither are dirty bits.
 */
module PageTables {
  import opened Numbers
  import opened Options
  import opened Queues

  const LEVELS := 4
  const ENTRIES := 512

  type Tid = nat

  /** Where a table is pointed to from. */
  datatype Slot = Slot(dir: Tid, idx: nat)

  /** An entry: a lower table, valid or in transition; at the lowest level, one that
      keeps the table in core or one that does not. A zero entry is absent. */
  datatype Pte = ToTable(t: Tid, trans: bool) | Held | Swapped

  datatype Table = Table(
    level: nat,
    nonzero: int,
    noswap: int,
    refcnt: int,
    parent: Option<Slot>,
    entries: map<nat, Pte>)

  datatype Space = Space(root: Tid, tables: map<Tid, Table>)

  function WithTable(s: Space, t: Tid, tab: Table): Space {
    s.(tables := s.tables[t := tab])
  }

  function WithEntry(s: Space, d: Tid, i: nat, pte: Pte): Space
    requires d in s.tables
  {
    WithTable(s, d, s.tables[d].(entries := s.tables[d].entries[i := pte]))
  }

  function WithoutEntry(s: Space, d: Tid, i: nat): Space
    requires d in s.tables
  {
    WithTable(s, d, s.tables[d].(entries := s.tables[d].entries - {i}))
  }

  /** `vmp_pagetable_page_noswap_pte_created` for a new entry. */
  function NoswapCreated(s: Space, t: Tid): Space
    requires t in s.tables
  {
    var tab := s.tables[t];
    WithTable(s, t, tab.(nonzero := tab.nonzero + 1, noswap := tab.noswap + 1, refcnt := tab.refcnt + 1))
  }

  /** The directory above, when there is one. */
  predicate HasDir(s: Space, t: Tid) {
    && t in s.tables && s.tables[t].parent.Some? && s.tables[t].parent.value.dir in s.tables
    && s.tables[t].level < s.tables[s.tables[t].parent.value.dir].level <= LEVELS
  }

  /** The reference of a deleted table's last entry goes: this frees it. */
  function Detach(s: Space, t: Tid): Space {
    if t in s.tables && s.tables[t].refcnt != 1 then
      WithTable(s, t, s.tables[t].(noswap := 0, parent := None, refcnt := s.tables[t].refcnt - 1))
    else s.(tables := s.tables - {t})
  }

  /** `vmp_pagetable_page_pte_deleted` for an entry that was not swapped: the table
      goes away with its last entry, or is put in transition with its last in-core
      one. */
  function PteDeleted(s: Space, t: Tid): Space
    requires t in s.tables
    decreases LEVELS - s.tables[t].level
  {
    var tab := s.tables[t];
    if tab.nonzero == 1 && t != s.root && HasDir(s, t) then
      var Slot(d, i) := tab.parent.value;
      var s1 := WithoutEntry(WithTable(s, t, tab.(nonzero := 0)), d, i);
      Detach(PteDeleted(s1, d), t)
    else
      var s1 := if tab.noswap == 1 && t != s.root && HasDir(s, t)
                then WithEntry(s, tab.parent.value.dir, tab.parent.value.idx, ToTable(t, true)) else s;
      WithTable(s1, t, tab.(nonzero := tab.nonzero - 1, noswap := tab.noswap - 1, refcnt := tab.refcnt - 1))
  }

  // ---------------------------------------------------------------------- wiring

  /** `vmp_addr_unpack`: the index into a table of each level. */
  function Index(va: nat, level: nat): nat
    requires 0 < level
  {
    va / Pow2(12 + 9 * (level - 1)) % ENTRIES
  }

  /** Every table down to the leaf is wired; the entry at some level is missing; or it
      is in a state that needs page-in. The tables wired so far are listed from the
      top. */
  datatype Wiring =
    | Wired(s: Space, pages: seq<Tid>)
    | Missing(s: Space, pages: seq<Tid>, level: nat)
    | NeedsPageIn(s: Space, pages: seq<Tid>)

  /** The table a directory entry points to is wired, and made valid if it was not. */
  function WireExisting(s: Space, d: Tid, i: nat, t: Tid, trans: bool): Space
    requires d in s.tables && t in s.tables
  {
    var s1 := NoswapCreated(s, t);
    if trans then WithEntry(s1, d, i, ToTable(t, false)) else s1
  }

  /** A new table, wired, is entered in its directory (`vmp_md_setup_table_pointers`). */
  function WireNew(s: Space, d: Tid, i: nat, t: Tid): Space
    requires d in s.tables
  {
    var level := if s.tables[d].level == 0 then 0 else s.tables[d].level - 1;
    var s1 := WithTable(s, t, Table(level, 1, 1, 1, Some(Slot(d, i)), map[]));
    NoswapCreated(WithEntry(s1, d, i, ToTable(t, false)), d)
  }

  /** The level loop of `vmp_wire_pte` from table `d`, already wired, downward. `frames`
      are what the page allocator gives for new tables. */
  function Descend(s: Space, d: Tid, level: nat, va: nat, create: bool, frames: seq<Tid>): Wiring
    requires d in s.tables
    decreases level
  {
    if level <= 1 then Wired(s, [d])
    else
      var i := Index(va, level);
      if i !in s.tables[d].entries then
        if !create || frames == [] then Missing(s, [d], level)
        else Above(d, Descend(WireNew(s, d, i, frames[0]), frames[0], level - 1, va, create, frames[1..]))
      else
        match s.tables[d].entries[i]
        case ToTable(t, trans) =>
          if t !in s.tables then NeedsPageIn(s, [d])
          else Above(d, Descend(WireExisting(s, d, i, t, trans), t, level - 1, va, create, frames))
        case _ => NeedsPageIn(s, [d])
  }

  function Above(d: Tid, w: Wiring): Wiring {
    match w
    case Wired(s, pages) => Wired(s, [d] + pages)
    case Missing(s, pages, level) => Missing(s, [d] + pages, level)
    case NeedsPageIn(s, pages) => NeedsPageIn(s, [d] + pages)
  }

  /** `vmp_pte_wire_state_release`: from the lowest table up. */
  function Release(s: Space, pages: seq<Tid>): Space {
    if pages == [] then s
    else
      var below := Release(s, pages[1..]);
      if pages[0] in below.tables then PteDeleted(below, pages[0]) else below
  }

  /** `vmp_wire_pte`, which gives up what it has wired when an entry is missing. */
  function Wire(s: Space, va: nat, create: bool, frames: seq<Tid>): Wiring
    requires s.root in s.tables
  {
    var w := Descend(NoswapCreated(s, s.root), s.root, LEVELS, va, create, frames);
    if w.Missing? then Missing(Release(w.s, w.pages), [], w.level) else w
  }

  // ------------------------------------------------------------------- well-formed

  /** An entry that points to a table is the one the table is pointed to from; it is in
      transition exactly when nothing keeps the table in core. */
  predicate EntryOk(s: Space, d: Tid, i: nat, t: Tid, trans: bool) {
    && d in s.tables && t in s.tables && t != s.root && t != d
    && s.tables[t].parent == Some(Slot(d, i)) && s.tables[t].level + 1 == s.tables[d].level <= LEVELS
    && 0 < s.tables[t].nonzero && 0 <= s.tables[t].noswap && (trans <==> s.tables[t].noswap == 0)
  }

  ghost predicate TreeOk(s: Space) {
    && s.root in s.tables
    && (forall d, i :: d in s.tables && i in s.tables[d].entries && s.tables[d].entries[i].ToTable? ==>
          EntryOk(s, d, i, s.tables[d].entries[i].t, s.tables[d].entries[i].trans))
  }

  /** Somebody is wiring the table. */
  predicate Pinned(s: Space, d: Tid) {
    d in s.tables && 0 < s.tables[d].nonzero && 0 < s.tables[d].noswap
  }

  // ----------------------------------------------------- each wiring step is undone

  lemma {:induction false} ExistingUndone(s: Space, d: Tid, i: nat, t: Tid, trans: bool)
    requires EntryOk(s, d, i, t, trans) && i in s.tables[d].entries && s.tables[d].entries[i] == ToTable(t, trans)
    ensures PteDeleted(WireExisting(s, d, i, t, trans), t) == s
  {
    var s1 := WireExisting(s, d, i, t, trans);
    assert s1.tables[t].nonzero != 1;
    assert HasDir(s1, t);
    var s2 := PteDeleted(s1, t);
    assert s2.tables[d].entries == s.tables[d].entries;
    assert s2.tables == s.tables;
  }

  lemma {:induction false} NewUndone(s: Space, d: Tid, i: nat, t: Tid)
    requires Pinned(s, d) && t !in s.tables && s.root in s.tables && i !in s.tables[d].entries
    requires 0 < s.tables[d].level <= LEVELS
    ensures PteDeleted(WireNew(s, d, i, t), t) == s
  {
    var s1 := WireNew(s, d, i, t);
    var s2 := WithoutEntry(WithTable(s1, t, s1.tables[t].(nonzero := 0)), d, i);
    assert HasDir(s1, t);
    assert s2.tables[d].entries == s.tables[d].entries;
    var s3 := PteDeleted(s2, d);
    assert s3.tables[d] == s.tables[d];
    assert PteDeleted(s1, t) == Detach(s3, t);
    assert Detach(s3, t).tables == s.tables;
  }

  lemma {:induction false} ExistingTree(s: Space, d: Tid, i: nat, t: Tid, trans: bool)
    requires TreeOk(s) && d in s.tables && i in s.tables[d].entries && s.tables[d].entries[i] == ToTable(t, trans)
    ensures EntryOk(s, d, i, t, trans) && WireExisting(s, d, i, t, trans).tables[t].level == s.tables[t].level
    ensures TreeOk(WireExisting(s, d, i, t, trans)) && Pinned(WireExisting(s, d, i, t, trans), t)
    ensures WireExisting(s, d, i, t, trans).tables.Keys == s.tables.Keys
  {
    assert EntryOk(s, d, i, t, trans);
    var s1 := WireExisting(s, d, i, t, trans);
    forall e, j | e in s1.tables && j in s1.tables[e].entries && s1.tables[e].entries[j].ToTable?
      ensures EntryOk(s1, e, j, s1.tables[e].entries[j].t, s1.tables[e].entries[j].trans)
    {
      assert EntryOk(s, e, j, s.tables[e].entries[j].t, s.tables[e].entries[j].trans);
    }
  }

  lemma {:induction false} NewTree(s: Space, d: Tid, i: nat, t: Tid)
    requires TreeOk(s) && Pinned(s, d) && t !in s.tables && i !in s.tables[d].entries && 0 < s.tables[d].level <= LEVELS
    ensures TreeOk(WireNew(s, d, i, t)) && Pinned(WireNew(s, d, i, t), t) && WireNew(s, d, i, t).root == s.root
    ensures WireNew(s, d, i, t).tables.Keys == s.tables.Keys + {t}
    ensures WireNew(s, d, i, t).tables[t].level == s.tables[d].level - 1
  {
    var s1 := WireNew(s, d, i, t);
    forall e, j | e in s1.tables && j in s1.tables[e].entries && s1.tables[e].entries[j].ToTable?
      ensures EntryOk(s1, e, j, s1.tables[e].entries[j].t, s1.tables[e].entries[j].trans)
    {
      if e != t && !(e == d && j == i) {
        assert EntryOk(s, e, j, s.tables[e].entries[j].t, s.tables[e].entries[j].trans);
      }
    }
  }

  lemma {:induction false} RootThere(s: Space)
    requires TreeOk(s)
    ensures s.root in s.tables
  {
  }

  /** What has been wired below a table is undone by releasing it. */
  lemma {:induction false} DescendUndone(s: Space, d: Tid, level: nat, va: nat, create: bool, frames: seq<Tid>)
    requires TreeOk(s) && Pinned(s, d) && s.tables[d].level == level <= LEVELS && 0 < level
    requires Distinct(frames) && forall f :: f in frames ==> f !in s.tables
    ensures var w := Descend(s, d, level, va, create, frames);
            w.pages != [] && w.pages[0] == d && Release(w.s, w.pages[1..]) == s
    decreases level
  {
    hide TreeOk, WireNew, WireExisting, PteDeleted, Index;
    if 1 < level {
      var i := Index(va, level);
      if i !in s.tables[d].entries {
        if create && frames != [] {
          var t := frames[0];
          TailOf(frames);
          RootThere(s);
          NewTree(s, d, i, t);
          var s1 := WireNew(s, d, i, t);
          DescendUndone(s1, t, level - 1, va, create, frames[1..]);
          NewUndone(s, d, i, t);
        }
      } else if s.tables[d].entries[i].ToTable? {
        var ToTable(t, trans) := s.tables[d].entries[i];
        ExistingTree(s, d, i, t, trans);
        ExistingUndone(s, d, i, t, trans);
        DescendUndone(WireExisting(s, d, i, t, trans), t, level - 1, va, create, frames);
      }
    }
  }

  lemma {:induction false} RootPinned(s: Space)
    requires TreeOk(s) && 0 <= s.tables[s.root].nonzero && 0 <= s.tables[s.root].noswap
    ensures TreeOk(NoswapCreated(s, s.root)) && Pinned(NoswapCreated(s, s.root), s.root)
    ensures PteDeleted(NoswapCreated(s, s.root), s.root) == s
  {
    var s1 := NoswapCreated(s, s.root);
    forall e, j | e in s1.tables && j in s1.tables[e].entries && s1.tables[e].entries[j].ToTable?
      ensures EntryOk(s1, e, j, s1.tables[e].entries[j].t, s1.tables[e].entries[j].trans)
    {
      assert EntryOk(s, e, j, s.tables[e].entries[j].t, s.tables[e].entries[j].trans);
    }
    assert PteDeleted(s1, s.root).tables == s.tables;
  }

  /** Wiring is undone exactly: for every address and every mix of valid, transition
      and missing tables on its path, releasing what was wired restores every entry
      and count and frees exactly the tables that were created. When an entry is
      missing and may not be created, nothing has changed at all. */
  lemma {:induction false} WireUndone(s: Space, va: nat, create: bool, frames: seq<Tid>)
    requires TreeOk(s) && 0 <= s.tables[s.root].nonzero && 0 <= s.tables[s.root].noswap
    requires s.tables[s.root].level == LEVELS
    requires Distinct(frames) && forall f :: f in frames ==> f !in s.tables
    ensures var w := Wire(s, va, create, frames); Release(w.s, w.pages) == s
  {
    RootPinned(s);
    DescendUndone(NoswapCreated(s, s.root), s.root, LEVELS, va, create, frames);
  }

  /** `vmp_fetch_pte`: the leaf table the hardware reaches through valid entries. */
  function Fetch(s: Space, d: Tid, level: nat, va: nat): Option<Tid>
    requires d in s.tables
    decreases level
  {
    if level <= 1 then Some(d)
    else
      var i := Index(va, level);
      if i in s.tables[d].entries && s.tables[d].entries[i].ToTable? && !s.tables[d].entries[i].trans
         && s.tables[d].entries[i].t in s.tables
      then Fetch(s, s.tables[d].entries[i].t, level - 1, va)
      else None
  }
}
