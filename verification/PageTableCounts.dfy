/**
  The counts of every page table match its entries and the wirings in progress, and
  stay so as entries come and go, however far up the removal of a table cascades.
 */
module PageTableCounts {
  import opened Counting
  import opened Options
  import opened PageTables
  import opened Queues

  /** How many wirings hold each table. */
  type Pins = map<Tid, nat>

  function PinsOf(pins: Pins, t: Tid): nat {
    if t in pins then pins[t] else 0
  }

  function AddPin(pins: Pins, t: Tid): Pins {
    pins[t := PinsOf(pins, t) + 1]
  }

  ghost function InCore(entries: map<nat, Pte>): set<nat> {
    set i | i in entries && !entries[i].Swapped?
  }

  /** Table `t`'s counts are `extra` ahead of its entries and wirings. */
  ghost predicate CountsOk(tab: Table, pins: nat, extra: int) {
    && tab.nonzero == |tab.entries.Keys| + pins + extra && tab.noswap == |InCore(tab.entries)| + pins + extra
    && tab.refcnt == tab.noswap
  }

  /** A table below the root is pointed to from its slot, and is there for a reason. */
  ghost predicate ParentOk(s: Space, t: Tid)
    requires t in s.tables
  {
    var tab := s.tables[t];
    if t == s.root then tab.parent.None? && tab.level == LEVELS
    else
      && 0 < tab.nonzero && tab.parent.Some?
      && var Slot(d, i) := tab.parent.value;
         && d in s.tables && i in s.tables[d].entries && s.tables[d].entries[i] == ToTable(t, tab.noswap == 0)
         && tab.level + 1 == s.tables[d].level
  }

  ghost predicate ChildrenOk(s: Space, t: Tid)
    requires t in s.tables
  {
    forall i :: i in s.tables[t].entries && s.tables[t].entries[i].ToTable? ==>
      var c := s.tables[t].entries[i].t;
      c in s.tables && s.tables[c].parent == Some(Slot(t, i))
  }

  function Ahead(ahead: Option<Tid>, t: Tid): int {
    B(ahead == Some(t))
  }

  ghost predicate LevelsOk(s: Space) {
    s.root in s.tables && forall t :: t in s.tables ==> 0 < s.tables[t].level <= LEVELS
  }

  ghost predicate AllCounts(s: Space, pins: Pins, ahead: Option<Tid>) {
    forall t :: t in s.tables ==> CountsOk(s.tables[t], PinsOf(pins, t), Ahead(ahead, t))
  }

  ghost predicate AllParents(s: Space) {
    forall t :: t in s.tables ==> ParentOk(s, t)
  }

  ghost predicate AllChildren(s: Space) {
    forall t :: t in s.tables ==> ChildrenOk(s, t)
  }

  /** Counts match entries and wirings (but for the table `ahead`, by one), and entries
      and tables point to each other. */
  ghost predicate Consistent(s: Space, pins: Pins, ahead: Option<Tid>) {
    LevelsOk(s) && AllCounts(s, pins, ahead) && AllParents(s) && AllChildren(s)
  }

  lemma {:induction false} ConsistentTree(s: Space, pins: Pins)
    requires Consistent(s, pins, None)
    ensures TreeOk(s) && 0 <= s.tables[s.root].nonzero && 0 <= s.tables[s.root].noswap
    ensures s.tables[s.root].level == LEVELS
  {
    forall d, i | d in s.tables && i in s.tables[d].entries && s.tables[d].entries[i].ToTable?
      ensures EntryOk(s, d, i, s.tables[d].entries[i].t, s.tables[d].entries[i].trans)
    {
      assert ChildrenOk(s, d);
      var t := s.tables[d].entries[i].t;
      assert ParentOk(s, t);
      assert CountsOk(s.tables[t], PinsOf(pins, t), 0);
    }
    assert ParentOk(s, s.root);
    assert CountsOk(s.tables[s.root], PinsOf(pins, s.root), 0);
  }

  /** So wherever counts match entries and wirings, wiring is undone exactly. */
  lemma {:induction false} WireRestores(s: Space, pins: Pins, va: nat, create: bool, frames: seq<Tid>)
    requires Consistent(s, pins, None) && Distinct(frames) && forall f :: f in frames ==> f !in s.tables
    ensures s.root in s.tables
    ensures var w := Wire(s, va, create, frames); Release(w.s, w.pages) == s
  {
    ConsistentTree(s, pins);
    hide Consistent, TreeOk, Wire, Release;
    WireUndone(s, va, create, frames);
  }

  // ------------------------------------------------------------------ one entry

  lemma {:induction false} PutEntry(entries: map<nat, Pte>, i: nat, pte: Pte)
    ensures |entries[i := pte].Keys| == |entries.Keys| + B(i !in entries)
    ensures |InCore(entries[i := pte])| == |InCore(entries)| - B(i in InCore(entries)) + B(!pte.Swapped?)
  {
    var e := entries[i := pte];
    CardOne(entries.Keys, e.Keys, i);
    assert InCore(entries) - {i} == InCore(e) - {i};
    CardOne(InCore(entries), InCore(e), i);
  }

  lemma {:induction false} DropEntry(entries: map<nat, Pte>, i: nat)
    requires i in entries
    ensures |(entries - {i}).Keys| == |entries.Keys| - 1
    ensures |InCore(entries - {i})| == |InCore(entries)| - B(!entries[i].Swapped?)
  {
    var e := entries - {i};
    CardOne(entries.Keys, e.Keys, i);
    assert InCore(entries) - {i} == InCore(e) - {i};
    CardOne(InCore(entries), InCore(e), i);
  }

  // ------------------------------------------------------------- removal cascades

  function Hidden(s: Space, t: Tid): Space {
    s.(tables := s.tables - {t})
  }

  lemma {:induction false} HiddenStep(s: Space, t: Tid, d: Tid, e: Tid, i: nat)
    requires t in s.tables && d in s.tables && e in s.tables && t != d && t != e
    ensures var tab := s.tables[d].(nonzero := 0);
            Hidden(WithoutEntry(WithTable(s, d, tab), e, i), t) == WithoutEntry(WithTable(Hidden(s, t), d, tab), e, i)
  {
    var tab := s.tables[d].(nonzero := 0);
    assert Hidden(WithoutEntry(WithTable(s, d, tab), e, i), t).tables ==
      WithoutEntry(WithTable(Hidden(s, t), d, tab), e, i).tables;
  }

  lemma {:induction false} HiddenDetach(s: Space, t: Tid, d: Tid)
    requires t != d
    ensures Hidden(Detach(s, d), t) == Detach(Hidden(s, t), d)
    ensures t in s.tables ==> t in Detach(s, d).tables && Detach(s, d).tables[t] == s.tables[t]
  {
    assert Hidden(Detach(s, d), t).tables == Detach(Hidden(s, t), d).tables;
  }

  /** A table below the ones concerned is not looked at. */
  lemma {:induction false} Ignored(s: Space, t: Tid, d: Tid)
    requires t in s.tables && d in s.tables && d != t && s.tables[t].level < s.tables[d].level && t != s.root
    ensures var s' := PteDeleted(s, d);
            t in s'.tables && s'.tables[t] == s.tables[t] && PteDeleted(Hidden(s, t), d) == Hidden(s', t)
    decreases LEVELS - s.tables[d].level
  {
    var tab := s.tables[d];
    if tab.nonzero == 1 && d != s.root && HasDir(s, d) {
      var Slot(e, i) := tab.parent.value;
      var s1 := WithoutEntry(WithTable(s, d, tab.(nonzero := 0)), e, i);
      Ignored(s1, t, e);
      HiddenStep(s, t, d, e, i);
      HiddenDetach(PteDeleted(s1, e), t, d);
      hide Detach, WithTable, WithoutEntry;
    } else {
      assert PteDeleted(Hidden(s, t), d).tables == Hidden(PteDeleted(s, d), t).tables;
    }
  }

  /** The branch in which the table stays. */
  function Lowered(s: Space, t: Tid): Space
    requires t in s.tables
  {
    var tab := s.tables[t];
    var s1 := if tab.noswap == 1 && t != s.root && HasDir(s, t)
              then WithEntry(s, tab.parent.value.dir, tab.parent.value.idx, ToTable(t, true)) else s;
    WithTable(s1, t, tab.(nonzero := tab.nonzero - 1, noswap := tab.noswap - 1, refcnt := tab.refcnt - 1))
  }

  lemma {:induction false} LoweredCounts(s: Space, pins: Pins, t: Tid)
    requires AllCounts(s, pins, Some(t)) && AllParents(s) && t in s.tables
    ensures AllCounts(Lowered(s, t), pins, None)
  {
    var s' := Lowered(s, t);
    assert ParentOk(s, t);
    hide ParentOk;
    forall x | x in s'.tables ensures CountsOk(s'.tables[x], PinsOf(pins, x), 0) {
      assert CountsOk(s.tables[x], PinsOf(pins, x), Ahead(Some(t), x));
      if x != t && s'.tables[x] != s.tables[x] {
        PutEntry(s.tables[x].entries, s.tables[t].parent.value.idx, ToTable(t, true));
      }
    }
  }

  lemma {:induction false} LoweredParents(s: Space, t: Tid)
    requires AllParents(s) && LevelsOk(s) && t in s.tables && (t == s.root || 1 < s.tables[t].nonzero)
    requires 0 < s.tables[t].noswap
    ensures AllParents(Lowered(s, t)) && LevelsOk(Lowered(s, t))
  {
    assert ParentOk(s, t);
    hide ParentOk;
    var s' := Lowered(s, t);
    forall x | x in s'.tables ensures ParentOk(s', x) {
      assert ParentOk(s, x);
      LoweredParent(s, t, x);
    }
  }

  lemma {:induction false} LoweredParent(s: Space, t: Tid, x: Tid)
    requires LevelsOk(s) && t in s.tables && x in s.tables && ParentOk(s, t) && ParentOk(s, x) && 0 < s.tables[t].noswap
    requires t == s.root || 1 < s.tables[t].nonzero
    ensures ParentOk(Lowered(s, t), x)
  {
  }

  lemma {:induction false} LoweredChildren(s: Space, t: Tid)
    requires AllParents(s) && AllChildren(s) && t in s.tables
    ensures AllChildren(Lowered(s, t))
  {
    assert ParentOk(s, t);
    hide ParentOk, ChildrenOk;
    var s' := Lowered(s, t);
    forall x | x in s'.tables ensures ChildrenOk(s', x) {
      LoweredChild(s, t, x);
    }
  }

  lemma {:induction false} LoweredChild(s: Space, t: Tid, x: Tid)
    requires t in s.tables && x in s.tables && ParentOk(s, t) && ChildrenOk(s, x)
    ensures ChildrenOk(Lowered(s, t), x)
  {
  }

  lemma {:induction false} LoweredKeeps(s: Space, pins: Pins, t: Tid)
    requires Consistent(s, pins, Some(t)) && t in s.tables && (t == s.root || 1 < s.tables[t].nonzero)
    ensures Consistent(Lowered(s, t), pins, None)
  {
    assert CountsOk(s.tables[t], PinsOf(pins, t), 1);
    hide LevelsOk, AllCounts, AllParents, AllChildren, Lowered;
    LoweredCounts(s, pins, t);
    LoweredParents(s, t);
    LoweredChildren(s, t);
  }

  lemma {:induction false} LoweredKeys(s: Space, t: Tid)
    requires t in s.tables
    ensures Lowered(s, t).tables.Keys == s.tables.Keys && Lowered(s, t).root == s.root
  {
  }

  /** The branch in which the table goes: its directory has lost an entry. */
  function Removed(s: Space, t: Tid): Space
    requires HasDir(s, t)
  {
    var Slot(d, i) := s.tables[t].parent.value;
    WithoutEntry(s.(tables := s.tables - {t}), d, i)
  }

  /** What a table with one reason left looks like when that goes. */
  lemma {:induction false} LastEntry(s: Space, pins: Pins, t: Tid)
    requires LevelsOk(s) && AllCounts(s, pins, Some(t)) && AllParents(s) && t in s.tables && t != s.root
    requires s.tables[t].nonzero == 1
    ensures HasDir(s, t) && PinsOf(pins, t) == 0 && s.tables[t].refcnt == 1 && s.tables[t].entries.Keys == {}
    ensures s.tables[t].parent.value.dir != t
    ensures s.tables[t].parent.value.idx in s.tables[s.tables[t].parent.value.dir].entries
    ensures var Slot(d, i) := s.tables[t].parent.value; s.tables[d].entries[i].ToTable? && s.tables[d].entries[i].t == t
  {
    assert ParentOk(s, t);
    assert CountsOk(s.tables[t], PinsOf(pins, t), 1);
    assert s.tables[t].entries.Keys == {};
    assert InCore(s.tables[t].entries) == {};
  }

  lemma {:induction false} RemovedCounts(s: Space, pins: Pins, t: Tid)
    requires AllCounts(s, pins, Some(t)) && HasDir(s, t) && s.tables[t].parent.value.dir != t
    requires var Slot(d, i) := s.tables[t].parent.value; i in s.tables[d].entries && s.tables[d].entries[i].ToTable?
    ensures AllCounts(Removed(s, t), pins, Some(s.tables[t].parent.value.dir))
  {
    var s' := Removed(s, t);
    var Slot(d, i) := s.tables[t].parent.value;
    forall x | x in s'.tables ensures CountsOk(s'.tables[x], PinsOf(pins, x), Ahead(Some(d), x)) {
      assert CountsOk(s.tables[x], PinsOf(pins, x), 0);
      if x == d {
        DropEntry(s.tables[d].entries, i);
      }
    }
  }

  lemma {:induction false} RemovedParents(s: Space, t: Tid)
    requires LevelsOk(s) && AllParents(s) && AllChildren(s) && HasDir(s, t) && t != s.root
    requires s.tables[t].entries.Keys == {}
    requires s.tables[t].parent.value.dir != t
    ensures LevelsOk(Removed(s, t)) && AllParents(Removed(s, t))
  {
    var s' := Removed(s, t);
    assert ParentOk(s, t);
    forall x | x in s'.tables ensures ParentOk(s', x) {
      assert ParentOk(s, x);
    }
  }

  lemma {:induction false} RemovedChildren(s: Space, t: Tid)
    requires AllChildren(s) && HasDir(s, t) && s.tables[t].parent.value.dir != t
    ensures AllChildren(Removed(s, t))
  {
    var s' := Removed(s, t);
    forall x | x in s'.tables ensures ChildrenOk(s', x) {
      assert ChildrenOk(s, x);
    }
  }

  lemma {:induction false} RemovedKeeps(s: Space, pins: Pins, t: Tid)
    requires Consistent(s, pins, Some(t)) && t in s.tables && t != s.root && s.tables[t].nonzero == 1
    ensures HasDir(s, t) && PinsOf(pins, t) == 0 && s.tables[t].refcnt == 1 && s.tables[t].parent.Some?
    ensures s.tables[t].parent.value.dir in s.tables && s.tables[t].level < s.tables[s.tables[t].parent.value.dir].level
    ensures var d := s.tables[t].parent.value.dir; d != t && Consistent(Removed(s, t), pins, Some(d))
  {
    hide LevelsOk, AllCounts, AllParents, AllChildren, Removed;
    LastEntry(s, pins, t);
    RemovedCounts(s, pins, t);
    RemovedParents(s, t);
    RemovedChildren(s, t);
  }

  /** Taking the entry away first and then the table comes to the same. */
  lemma {:induction false} RemovedIs(s: Space, t: Tid)
    requires HasDir(s, t) && s.tables[t].parent.value.dir != t && t != s.root && s.tables[t].nonzero == 1
    requires s.tables[t].refcnt == 1
    ensures s.tables[t].parent.value.dir in Removed(s, t).tables
    ensures Removed(s, t).tables[s.tables[t].parent.value.dir].level == s.tables[s.tables[t].parent.value.dir].level
    ensures PteDeleted(s, t) == PteDeleted(Removed(s, t), s.tables[t].parent.value.dir)
  {
    var Slot(d, i) := s.tables[t].parent.value;
    var s1 := WithoutEntry(WithTable(s, t, s.tables[t].(nonzero := 0)), d, i);
    assert Hidden(s1, t).tables == Removed(s, t).tables;
    Ignored(s1, t, d);
  }

  /** Zeroing an entry of table `t` and telling the table keeps every count right. The
      tables that go, one above the other, are below the root and not being wired;
      those that stay below the root all have something in them. */
  lemma {:induction false} PteDeletedKeeps(s: Space, pins: Pins, t: Tid)
    requires Consistent(s, pins, Some(t)) && t in s.tables
    ensures var s' := PteDeleted(s, t);
            && Consistent(s', pins, None) && s'.root == s.root && s'.tables.Keys <= s.tables.Keys
            && (forall x :: x in s.tables && x !in s'.tables ==> PinsOf(pins, x) == 0 && x != s.root)
    decreases LEVELS - s.tables[t].level
  {
    hide Consistent, PteDeleted, Removed, Lowered, HasDir, PinsOf;
    LevelKnown(s, pins, t);
    if s.tables[t].nonzero == 1 && t != s.root {
      RemovedKeeps(s, pins, t);
      RemovedIs(s, t);
      RemovedKeys(s, t);
      PteDeletedKeeps(Removed(s, t), pins, s.tables[t].parent.value.dir);
    } else {
      Grounded(s, pins, t);
      LoweredKeeps(s, pins, t);
      LoweredKeys(s, t);
      LoweredIs(s, t);
    }
  }

  lemma {:induction false} LevelKnown(s: Space, pins: Pins, t: Tid)
    requires Consistent(s, pins, Some(t)) && t in s.tables
    ensures 0 < s.tables[t].level <= LEVELS
  {
  }

  lemma {:induction false} LoweredIs(s: Space, t: Tid)
    requires t in s.tables && (s.tables[t].nonzero != 1 || t == s.root)
    ensures PteDeleted(s, t) == Lowered(s, t)
  {
  }

  lemma {:induction false} RemovedKeys(s: Space, t: Tid)
    requires HasDir(s, t) && s.tables[t].parent.value.dir != t
    ensures Removed(s, t).tables.Keys == s.tables.Keys - {t} && Removed(s, t).root == s.root
  {
  }

  lemma {:induction false} Grounded(s: Space, pins: Pins, t: Tid)
    requires Consistent(s, pins, Some(t)) && t in s.tables
    ensures t == s.root || 0 < s.tables[t].nonzero
  {
    assert ParentOk(s, t);
  }

  lemma {:induction false} ZeroedCounts(s: Space, pins: Pins, t: Tid, i: nat)
    requires AllCounts(s, pins, None) && t in s.tables && i in s.tables[t].entries && s.tables[t].entries[i].Held?
    ensures AllCounts(WithoutEntry(s, t, i), pins, Some(t))
  {
    var s' := WithoutEntry(s, t, i);
    DropEntry(s.tables[t].entries, i);
    forall x | x in s'.tables ensures CountsOk(s'.tables[x], PinsOf(pins, x), Ahead(Some(t), x)) {
      assert CountsOk(s.tables[x], PinsOf(pins, x), 0);
    }
  }

  lemma {:induction false} ZeroedParents(s: Space, t: Tid, i: nat)
    requires LevelsOk(s) && AllParents(s) && t in s.tables && i in s.tables[t].entries && s.tables[t].entries[i].Held?
    ensures LevelsOk(WithoutEntry(s, t, i)) && AllParents(WithoutEntry(s, t, i))
  {
    var s' := WithoutEntry(s, t, i);
    forall x | x in s'.tables ensures ParentOk(s', x) {
      assert ParentOk(s, x);
    }
  }

  lemma {:induction false} ZeroedChildren(s: Space, t: Tid, i: nat)
    requires AllChildren(s) && t in s.tables
    ensures AllChildren(WithoutEntry(s, t, i))
  {
    var s' := WithoutEntry(s, t, i);
    forall x | x in s'.tables ensures ChildrenOk(s', x) {
      assert ChildrenOk(s, x);
    }
  }

  /** Zeroing an in-core entry that is no table pointer leaves its table one ahead. */
  lemma {:induction false} EntryZeroed(s: Space, pins: Pins, t: Tid, i: nat)
    requires Consistent(s, pins, None) && t in s.tables && i in s.tables[t].entries && s.tables[t].entries[i].Held?
    ensures Consistent(WithoutEntry(s, t, i), pins, Some(t))
  {
    hide LevelsOk, AllCounts, AllParents, AllChildren, WithoutEntry;
    ZeroedCounts(s, pins, t, i);
    ZeroedParents(s, t, i);
    ZeroedChildren(s, t, i);
  }

  /** Unmapping a page: its entry goes, with every table that held nothing else. */
  lemma {:induction false} UnmapKeeps(s: Space, pins: Pins, t: Tid, i: nat)
    requires Consistent(s, pins, None) && t in s.tables && i in s.tables[t].entries && s.tables[t].entries[i].Held?
    ensures var s' := PteDeleted(WithoutEntry(s, t, i), t);
            && Consistent(s', pins, None)
            && (forall x :: x in s.tables && x !in s'.tables ==> PinsOf(pins, x) == 0 && x != s.root)
            && (forall x :: x in s'.tables && x != s'.root ==> s'.tables[x].entries != map[] || 0 < PinsOf(pins, x))
  {
    hide PteDeleted, Consistent;
    EntryZeroed(s, pins, t, i);
    PteDeletedKeeps(WithoutEntry(s, t, i), pins, t);
    var s' := PteDeleted(WithoutEntry(s, t, i), t);
    forall x | x in s'.tables && x != s'.root ensures s'.tables[x].entries != map[] || 0 < PinsOf(pins, x) {
      HasReason(s', pins, x);
    }
  }

  lemma {:induction false} HasReason(s: Space, pins: Pins, x: Tid)
    requires Consistent(s, pins, None) && x in s.tables && x != s.root
    ensures s.tables[x].entries != map[] || 0 < PinsOf(pins, x)
  {
    assert ParentOk(s, x) && CountsOk(s.tables[x], PinsOf(pins, x), 0);
  }

  // ------------------------------------------------------------- counts while wiring

  lemma {:induction false} ExistingCounts(s: Space, pins: Pins, d: Tid, i: nat, t: Tid, trans: bool)
    requires AllCounts(s, pins, None) && EntryOk(s, d, i, t, trans) && i in s.tables[d].entries
    requires s.tables[d].entries[i] == ToTable(t, trans)
    ensures AllCounts(WireExisting(s, d, i, t, trans), AddPin(pins, t), None)
  {
    var s' := WireExisting(s, d, i, t, trans);
    PutEntry(s.tables[d].entries, i, ToTable(t, false));
    forall x | x in s'.tables ensures CountsOk(s'.tables[x], PinsOf(AddPin(pins, t), x), 0) {
      assert CountsOk(s.tables[x], PinsOf(pins, x), 0);
    }
  }

  lemma {:induction false} ExistingParent(s: Space, d: Tid, i: nat, t: Tid, trans: bool, x: Tid)
    requires EntryOk(s, d, i, t, trans) && i in s.tables[d].entries && s.tables[d].entries[i] == ToTable(t, trans)
    requires x in WireExisting(s, d, i, t, trans).tables && ParentOk(s, x)
    ensures ParentOk(WireExisting(s, d, i, t, trans), x)
  {
  }

  lemma {:induction false} ExistingParents(s: Space, d: Tid, i: nat, t: Tid, trans: bool)
    requires LevelsOk(s) && AllParents(s) && EntryOk(s, d, i, t, trans) && i in s.tables[d].entries
    requires s.tables[d].entries[i] == ToTable(t, trans)
    ensures LevelsOk(WireExisting(s, d, i, t, trans)) && AllParents(WireExisting(s, d, i, t, trans))
  {
    hide ParentOk;
    var s' := WireExisting(s, d, i, t, trans);
    forall x | x in s'.tables ensures ParentOk(s', x) {
      ExistingParent(s, d, i, t, trans, x);
    }
  }

  lemma {:induction false} ExistingChildren(s: Space, d: Tid, i: nat, t: Tid, trans: bool)
    requires AllChildren(s) && EntryOk(s, d, i, t, trans) && i in s.tables[d].entries
    requires s.tables[d].entries[i] == ToTable(t, trans)
    ensures AllChildren(WireExisting(s, d, i, t, trans))
  {
    var s' := WireExisting(s, d, i, t, trans);
    forall x | x in s'.tables ensures ChildrenOk(s', x) {
      assert ChildrenOk(s, x);
    }
  }

  lemma {:induction false} NewCounts(s: Space, pins: Pins, d: Tid, i: nat, t: Tid)
    requires AllCounts(s, pins, None) && d in s.tables && t !in s.tables && PinsOf(pins, t) == 0
    requires i !in s.tables[d].entries
    ensures AllCounts(WireNew(s, d, i, t), AddPin(pins, t), None)
  {
    var s' := WireNew(s, d, i, t);
    PutEntry(s.tables[d].entries, i, ToTable(t, false));
    assert s'.tables[t].entries.Keys == {};
    assert InCore(s'.tables[t].entries) == {};
    forall x | x in s'.tables ensures CountsOk(s'.tables[x], PinsOf(AddPin(pins, t), x), 0) {
      assert x in s.tables ==> CountsOk(s.tables[x], PinsOf(pins, x), 0);
    }
  }

  lemma {:induction false} NewParent(s: Space, d: Tid, i: nat, t: Tid, x: Tid)
    requires Pinned(s, d) && t !in s.tables && s.root in s.tables && i !in s.tables[d].entries
    requires 1 < s.tables[d].level && x in WireNew(s, d, i, t).tables && (x in s.tables ==> ParentOk(s, x))
    ensures ParentOk(WireNew(s, d, i, t), x)
  {
  }

  lemma {:induction false} NewParents(s: Space, d: Tid, i: nat, t: Tid)
    requires LevelsOk(s) && AllParents(s) && Pinned(s, d) && t !in s.tables && s.root in s.tables
    requires i !in s.tables[d].entries && 1 < s.tables[d].level
    ensures LevelsOk(WireNew(s, d, i, t)) && AllParents(WireNew(s, d, i, t))
  {
    hide ParentOk;
    var s' := WireNew(s, d, i, t);
    forall x | x in s'.tables ensures ParentOk(s', x) {
      NewParent(s, d, i, t, x);
    }
  }

  lemma {:induction false} NewChildren(s: Space, d: Tid, i: nat, t: Tid)
    requires AllChildren(s) && Pinned(s, d) && t !in s.tables && s.root in s.tables && i !in s.tables[d].entries
    requires 1 < s.tables[d].level
    ensures AllChildren(WireNew(s, d, i, t))
  {
    var s' := WireNew(s, d, i, t);
    forall x | x in s'.tables ensures ChildrenOk(s', x) {
      assert x in s.tables ==> ChildrenOk(s, x);
    }
  }

  function PinAll(pins: Pins, pages: seq<Tid>): Pins
    decreases |pages|
  {
    if pages == [] then pins else PinAll(AddPin(pins, pages[0]), pages[1..])
  }

  /** Tables at higher levels than `d` are as before. */
  ghost predicate SameAbove(s: Space, s': Space, level: nat) {
    && s'.root == s.root && s.tables.Keys <= s'.tables.Keys
    && (forall x :: x in s.tables && level < s.tables[x].level ==> s'.tables[x] == s.tables[x])
  }

  lemma {:induction false} PinNext(pins: Pins, d: Tid, pages: seq<Tid>)
    requires pages != []
    ensures PinAll(pins, ([d] + pages)[1..]) == PinAll(AddPin(pins, pages[0]), pages[1..])
  {
    assert ([d] + pages)[1..] == pages;
  }

  lemma {:induction false} DescendEnd(s: Space, d: Tid, va: nat, create: bool, frames: seq<Tid>)
    requires d in s.tables
    ensures Descend(s, d, 1, va, create, frames) == Wired(s, [d]) && Fetch(s, d, 1, va) == Some(d)
  {
  }

  lemma {:induction false} DescendIs(s: Space, d: Tid, level: nat, va: nat, create: bool, frames: seq<Tid>)
    requires d in s.tables && 1 < level
    ensures var i, w := Index(va, level), Descend(s, d, level, va, create, frames);
            if i !in s.tables[d].entries then
              if !create || frames == [] then w == Missing(s, [d], level)
              else w == Above(d, Descend(WireNew(s, d, i, frames[0]), frames[0], level - 1, va, create, frames[1..]))
            else
              match s.tables[d].entries[i]
              case ToTable(t, trans) =>
                if t !in s.tables then w == NeedsPageIn(s, [d])
                else w == Above(d, Descend(WireExisting(s, d, i, t, trans), t, level - 1, va, create, frames))
              case _ => w == NeedsPageIn(s, [d])
  {
    hide WireNew, WireExisting, Index;
  }

  /** However far a wiring gets, counts keep matching entries and wirings; and when it
      reaches the bottom the hardware walk finds the same leaf table. */
  lemma {:induction false} DescendCounts(s: Space, pins: Pins, d: Tid, level: nat, va: nat, create: bool,
                                         frames: seq<Tid>)
    requires Consistent(s, pins, None) && Pinned(s, d) && s.tables[d].level == level && 0 < level <= LEVELS
    requires Distinct(frames) && forall f :: f in frames ==> f !in s.tables && PinsOf(pins, f) == 0
    ensures var w := Descend(s, d, level, va, create, frames);
            && w.pages != [] && w.pages[0] == d && Consistent(w.s, PinAll(pins, w.pages[1..]), None)
            && SameAbove(s, w.s, level)
            && d in w.s.tables && (w.Wired? ==> Fetch(w.s, d, level, va) == Some(w.pages[|w.pages| - 1]))
    decreases level
  {
    hide Consistent, WireNew, WireExisting, Index, Stepped, SameAbove, Descend, Fetch, PinAll, AddPin, Distinct;
    SameAboveSelf(s, level);
    if level == 1 {
      DescendEnd(s, d, va, create, frames);
      PinNone(pins, d);
    } else {
      DescendIs(s, d, level, va, create, frames);
      var i := Index(va, level);
      if i !in s.tables[d].entries {
        if create && frames != [] {
          var t := frames[0];
          TailOf(frames);
          NewStep(s, pins, d, i, t);
          var s1 := WireNew(s, d, i, t);
          NextLevel(s, s1, pins, d, i, t, frames[1..]);
          DescendCounts(s1, AddPin(pins, t), t, level - 1, va, create, frames[1..]);
          PathBelow(s, s1, d, t, level, va, create, frames[1..]);
          PinNext(pins, d, Descend(s1, t, level - 1, va, create, frames[1..]).pages);
        } else {
          PinNone(pins, d);
        }
      } else if s.tables[d].entries[i].ToTable? {
        var ToTable(t, trans) := s.tables[d].entries[i];
        ExistingStep(s, pins, d, i, t, trans);
        assert t !in frames;
        var s1 := WireExisting(s, d, i, t, trans);
        NextLevel(s, s1, pins, d, i, t, frames);
        DescendCounts(s1, AddPin(pins, t), t, level - 1, va, create, frames);
        PathBelow(s, s1, d, t, level, va, create, frames);
        PinNext(pins, d, Descend(s1, t, level - 1, va, create, frames).pages);
      } else {
        PinNone(pins, d);
      }
    }
  }

  lemma {:induction false} SameAboveSelf(s: Space, level: nat)
    ensures SameAbove(s, s, level)
  {
  }

  lemma {:induction false} PinNone(pins: Pins, d: Tid)
    ensures PinAll(pins, [d][1..]) == pins
  {
  }

  lemma {:induction false} NextLevel(s: Space, s1: Space, pins: Pins, d: Tid, i: nat, t: Tid, frames: seq<Tid>)
    requires Stepped(s, s1, d, i, t) && t !in frames
    requires forall f :: f in frames ==> f !in s.tables && PinsOf(pins, f) == 0
    ensures t in s1.tables && Pinned(s1, t) && s1.tables[t].level + 1 == s.tables[d].level
    ensures forall f :: f in frames ==> f !in s1.tables && PinsOf(AddPin(pins, t), f) == 0
  {
  }

  /** One step down, as the whole descent needs it. */
  ghost predicate Stepped(s: Space, s1: Space, d: Tid, i: nat, t: Tid) {
    && d in s.tables && t in s1.tables && Pinned(s1, t) && s1.tables[t].level + 1 == s.tables[d].level
    && s1.root == s.root
    && d in s1.tables && s1.tables[d].level == s.tables[d].level && s1.tables.Keys == s.tables.Keys + {t}
    && i in s1.tables[d].entries && s1.tables[d].entries[i] == ToTable(t, false)
    && (forall x :: x in s.tables && s.tables[d].level < s.tables[x].level ==> s1.tables[x] == s.tables[x])
  }

  lemma {:induction false} NewStep(s: Space, pins: Pins, d: Tid, i: nat, t: Tid)
    requires Consistent(s, pins, None) && Pinned(s, d) && 1 < s.tables[d].level <= LEVELS
    requires t !in s.tables && PinsOf(pins, t) == 0 && i !in s.tables[d].entries
    ensures Consistent(WireNew(s, d, i, t), AddPin(pins, t), None) && Stepped(s, WireNew(s, d, i, t), d, i, t)
  {
    hide AllCounts, AllParents, AllChildren, LevelsOk, WireNew, Stepped, AddPin;
    RootIn(s);
    NewCounts(s, pins, d, i, t);
    NewParents(s, d, i, t);
    NewChildren(s, d, i, t);
    NewStepped(s, d, i, t);
  }

  lemma {:induction false} RootIn(s: Space)
    requires LevelsOk(s)
    ensures s.root in s.tables
  {
  }

  lemma {:induction false} NewStepped(s: Space, d: Tid, i: nat, t: Tid)
    requires Pinned(s, d) && 1 < s.tables[d].level <= LEVELS && t !in s.tables && i !in s.tables[d].entries
    ensures Stepped(s, WireNew(s, d, i, t), d, i, t)
  {
  }

  lemma {:induction false} ExistingStepped(s: Space, d: Tid, i: nat, t: Tid, trans: bool)
    requires EntryOk(s, d, i, t, trans) && i in s.tables[d].entries && s.tables[d].entries[i] == ToTable(t, trans)
    ensures Stepped(s, WireExisting(s, d, i, t, trans), d, i, t)
  {
  }

  lemma {:induction false} ExistingStep(s: Space, pins: Pins, d: Tid, i: nat, t: Tid, trans: bool)
    requires Consistent(s, pins, None) && d in s.tables && i in s.tables[d].entries
    requires s.tables[d].entries[i] == ToTable(t, trans)
    ensures t in s.tables && Consistent(WireExisting(s, d, i, t, trans), AddPin(pins, t), None)
    ensures Stepped(s, WireExisting(s, d, i, t, trans), d, i, t)
  {
    hide AllCounts, AllParents, AllChildren, LevelsOk, WireExisting, Stepped, AddPin, EntryOk;
    PointedTo(s, pins, d, i, t, trans);
    ExistingCounts(s, pins, d, i, t, trans);
    ExistingParents(s, d, i, t, trans);
    ExistingChildren(s, d, i, t, trans);
    ExistingStepped(s, d, i, t, trans);
  }

  lemma {:induction false} PointedTo(s: Space, pins: Pins, d: Tid, i: nat, t: Tid, trans: bool)
    requires Consistent(s, pins, None) && d in s.tables && i in s.tables[d].entries
    requires s.tables[d].entries[i] == ToTable(t, trans)
    ensures t in s.tables && EntryOk(s, d, i, t, trans)
  {
    assert ChildrenOk(s, d) && ParentOk(s, t) && CountsOk(s.tables[t], PinsOf(pins, t), 0);
  }

  lemma {:induction false} PathBelow(s: Space, s1: Space, d: Tid, t: Tid, level: nat, va: nat, create: bool,
                                     frames: seq<Tid>)
    requires 1 < level && d in s.tables && s.tables[d].level == level && Stepped(s, s1, d, Index(va, level), t)
    requires var w := Descend(s1, t, level - 1, va, create, frames);
             && w.pages != [] && w.pages[0] == t && SameAbove(s1, w.s, level - 1) && t in w.s.tables
             && (w.Wired? ==> Fetch(w.s, t, level - 1, va) == Some(w.pages[|w.pages| - 1]))
    ensures var w := Descend(s1, t, level - 1, va, create, frames);
            && SameAbove(s, w.s, level) && d in w.s.tables
            && (w.Wired? ==> Fetch(w.s, d, level, va) == Some(w.pages[|w.pages| - 1]))
  {
    hide Index, Descend;
    var w := Descend(s1, t, level - 1, va, create, frames);
    assert w.s.tables[d] == s1.tables[d];
  }

  /** The same for a whole wiring: it finds the leaf table of the address, and holds
      every table on the way. */
  lemma {:induction false} WireHolds(s: Space, pins: Pins, va: nat, create: bool, frames: seq<Tid>)
    requires s.root in s.tables && Consistent(s, pins, None)
    requires Distinct(frames) && forall f :: f in frames ==> f !in s.tables && PinsOf(pins, f) == 0
    ensures var w := Wire(s, va, create, frames);
            w.Wired? ==>
              && w.pages != [] && w.pages[0] == s.root && Consistent(w.s, PinAll(pins, w.pages), None)
              && s.root in w.s.tables && Fetch(w.s, s.root, LEVELS, va) == Some(w.pages[|w.pages| - 1])
  {
    hide Consistent, Descend, Fetch;
    RootStep(s, pins);
    DescendCounts(NoswapCreated(s, s.root), AddPin(pins, s.root), s.root, LEVELS, va, create, frames);
  }

  lemma {:induction false} RootStep(s: Space, pins: Pins)
    requires Consistent(s, pins, None)
    ensures Consistent(NoswapCreated(s, s.root), AddPin(pins, s.root), None) && Pinned(NoswapCreated(s, s.root), s.root)
    ensures s.root in s.tables && s.tables[s.root].level == LEVELS
    ensures NoswapCreated(s, s.root).tables.Keys == s.tables.Keys
    ensures forall f :: f !in s.tables ==> PinsOf(AddPin(pins, s.root), f) == PinsOf(pins, f)
  {
    assert ParentOk(s, s.root) && CountsOk(s.tables[s.root], PinsOf(pins, s.root), 0);
    hide AllCounts, AllParents, AllChildren, CountsOk, ParentOk;
    RootCounts(s, pins);
    RootLinks(s);
  }

  lemma {:induction false} RootCounts(s: Space, pins: Pins)
    requires s.root in s.tables && AllCounts(s, pins, None)
    ensures AllCounts(NoswapCreated(s, s.root), AddPin(pins, s.root), None)
  {
    var s' := NoswapCreated(s, s.root);
    forall x | x in s'.tables ensures CountsOk(s'.tables[x], PinsOf(AddPin(pins, s.root), x), 0) {
      assert CountsOk(s.tables[x], PinsOf(pins, x), 0);
    }
  }

  lemma {:induction false} RootLinks(s: Space)
    requires s.root in s.tables && AllParents(s) && AllChildren(s)
    ensures AllParents(NoswapCreated(s, s.root)) && AllChildren(NoswapCreated(s, s.root))
  {
    var s' := NoswapCreated(s, s.root);
    forall x | x in s'.tables ensures ParentOk(s', x) && ChildrenOk(s', x) {
      assert ParentOk(s, x) && ChildrenOk(s, x);
    }
  }

  // ---------------------------------------------------------------------- mapping a page

  /** A new in-core entry in table `t`, which the caller has wired, and its count. */
  function Mapped(s: Space, t: Tid, i: nat): Space
    requires t in s.tables
  {
    WithEntry(NoswapCreated(s, t), t, i, Held)
  }

  lemma {:induction false} MappedCounts(s: Space, pins: Pins, t: Tid, i: nat)
    requires AllCounts(s, pins, None) && t in s.tables && i !in s.tables[t].entries
    ensures AllCounts(Mapped(s, t, i), pins, None)
  {
    var s' := Mapped(s, t, i);
    PutEntry(s.tables[t].entries, i, Held);
    forall x | x in s'.tables ensures CountsOk(s'.tables[x], PinsOf(pins, x), 0) {
      assert CountsOk(s.tables[x], PinsOf(pins, x), 0);
    }
  }

  lemma {:induction false} MappedParents(s: Space, t: Tid, i: nat)
    requires LevelsOk(s) && AllParents(s) && Pinned(s, t) && i !in s.tables[t].entries
    ensures LevelsOk(Mapped(s, t, i)) && AllParents(Mapped(s, t, i))
  {
    var s' := Mapped(s, t, i);
    forall x | x in s'.tables ensures ParentOk(s', x) {
      assert ParentOk(s, x);
    }
  }

  lemma {:induction false} MappedChildren(s: Space, t: Tid, i: nat)
    requires AllChildren(s) && t in s.tables && i !in s.tables[t].entries
    ensures AllChildren(Mapped(s, t, i))
  {
    var s' := Mapped(s, t, i);
    forall x | x in s'.tables ensures ChildrenOk(s', x) {
      assert ChildrenOk(s, x);
    }
  }

  /** Mapping a page in a wired table keeps every count right, and unmapping it before the
      table is let go restores the tables exactly. */
  lemma {:induction false} MapKeeps(s: Space, pins: Pins, t: Tid, i: nat)
    requires Consistent(s, pins, None) && Pinned(s, t) && i !in s.tables[t].entries
    ensures Consistent(Mapped(s, t, i), pins, None)
    ensures t in WithoutEntry(Mapped(s, t, i), t, i).tables && PteDeleted(WithoutEntry(Mapped(s, t, i), t, i), t) == s
  {
    MapUndone(s, t, i);
    hide LevelsOk, AllCounts, AllParents, AllChildren, Mapped, WithoutEntry, PteDeleted;
    MappedCounts(s, pins, t, i);
    MappedParents(s, t, i);
    MappedChildren(s, t, i);
  }

  lemma {:induction false} MapUndone(s: Space, t: Tid, i: nat)
    requires Pinned(s, t) && i !in s.tables[t].entries
    ensures t in WithoutEntry(Mapped(s, t, i), t, i).tables && PteDeleted(WithoutEntry(Mapped(s, t, i), t, i), t) == s
  {
    var s1 := WithoutEntry(Mapped(s, t, i), t, i);
    assert s1.tables[t].entries == s.tables[t].entries;
    assert PteDeleted(s1, t).tables == s.tables;
  }
}
