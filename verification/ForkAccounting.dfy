/**
  What copy-on-write does to the two facts the page-out side relies on: a frame's
  reference count is the number of valid entries that map it, and a frame that was
  written is marked dirty or still mapped writeable. Neither always holds; here is
  exactly when each is lost.
 */
module ForkAccounting {
  import opened Counting
  import opened Options
  import opened ForkCow
  import opened ForkRefinement

  // ---------------------------------------------------- frame reference counts

  /** References to a frame beyond those its valid entries account for. */
  ghost function Surplus(s: State, pfn: Pfn): int
    requires pfn in s.pages
  {
    s.pages[pfn].refcnt - |Mappers(s, pfn)|
  }

  /** The operation is a write fault that copies the shared frame `pfn`. */
  ghost predicate CopiesFrom(s: State, op: Op, pfn: Pfn)
    requires Inv(s)
  {
    && op.FaultOp? && op.write && op.frame.Some?
    && op.slot.pid in s.procs && op.slot.vpn in s.procs[op.slot.pid].vads && s.procs[op.slot.pid].vads[op.slot.vpn]
    && PteAt(s, op.slot) == Valid(pfn, false)
    && FidAt(s, op.slot).Some? && FidAt(s, op.slot).value in s.forks && s.forks[FidAt(s, op.slot).value].refcount != 1
  }

  /** Entry `k` and no other changed, and no frame went away. */
  ghost predicate Followed(s: State, s': State, k: Slot) {
    && (forall slot :: slot != k ==> PteAt(s', slot) == PteAt(s, slot))
    && s.pages.Keys <= s'.pages.Keys
  }

  lemma {:induction false} MappersFollow(s: State, s': State, k: Slot, pfn: Pfn)
    requires Followed(s, s', k)
    ensures |Mappers(s', pfn)| == |Mappers(s, pfn)| - B(Maps(s, k, pfn)) + B(Maps(s', k, pfn))
  {
    forall x | x != k ensures x in Mappers(s, pfn) <==> x in Mappers(s', pfn) {
      assert PteAt(s', x) == PteAt(s, x);
    }
    assert Mappers(s, pfn) - {k} == Mappers(s', pfn) - {k};
    CardOne(Mappers(s, pfn), Mappers(s', pfn), k);
  }

  lemma {:induction false} FaultFollowed(s: State, slot: Slot, write: bool, frame: Option<Pfn>)
    requires Inv(s)
    ensures Followed(s, Fault(s, slot, write, frame).0, slot)
  {
    hide ForksOk, PagesOk, CountsOk, RefcntsOk, StatsOk, AnonOk;
    CopyableForks(s);
  }

  lemma {:induction false} FaultCounts(s: State, slot: Slot, write: bool, frame: Option<Pfn>, pfn: Pfn)
    requires Inv(s) && (frame.Some? ==> frame.value !in s.pages)
    requires pfn in Fault(s, slot, write, frame).0.pages
    ensures var s' := Fault(s, slot, write, frame).0;
            s'.pages[pfn].refcnt - B(Maps(s', slot, pfn)) ==
            if pfn in s.pages
            then s.pages[pfn].refcnt - B(Maps(s, slot, pfn)) + B(CopiesFrom(s, FaultOp(slot, write, frame), pfn))
            else 0
  {
    hide ForksOk, PagesOk, CountsOk, RefcntsOk, StatsOk, AnonOk;
    CopyableForks(s);
  }

  /** Fork moves no reference: the same entries map the same frames. */
  ghost predicate SameFrames(s: State, s': State, parent: Pid) {
    && s'.pages.Keys == s.pages.Keys
    && (forall p :: p in s.pages ==> s'.pages[p].refcnt == s.pages[p].refcnt && s'.pages[p].dirty == s.pages[p].dirty)
    && (forall x: Slot, p: Pfn :: Maps(s', x, p) <==> Maps(s, x, p))
    && (forall x: Slot :: x.pid != parent && PteAt(s, x).Valid? ==> PteAt(s', x) == PteAt(s, x))
  }

  ghost predicate ChildUnmapped(s: State, child: Pid) {
    forall v :: !PteAt(s, Slot(child, v)).Valid?
  }

  lemma {:induction false} CowPageFrames(s: State, parent: Pid, child: Pid, vpn: Vpn, fids: seq<Fid>)
    requires parent != child && ChildUnmapped(s, child)
    ensures var r := CowPage(s, parent, child, vpn, fids);
            r.Forked? ==> SameFrames(s, r.s, parent) && ChildUnmapped(r.s, child)
  {
    assert !PteAt(s, Slot(child, vpn)).Valid?;
  }

  lemma {:induction false} CowPagesFrames(s: State, parent: Pid, child: Pid, vpns: seq<Vpn>, fids: seq<Fid>)
    requires parent != child && ChildUnmapped(s, child)
    ensures var r := CowPages(s, parent, child, vpns, fids);
            r.Forked? ==> SameFrames(s, r.s, parent) && ChildUnmapped(r.s, child)
    decreases |vpns|
  {
    hide CowPage, ChildUnmapped;
    if vpns != [] {
      CowPageFrames(s, parent, child, vpns[0], fids);
      var r := CowPage(s, parent, child, vpns[0], fids);
      if r.Forked? {
        CowPagesFrames(r.s, parent, child, vpns[1..], r.fids);
      }
    }
  }

  lemma {:induction false} NewChildFrames(s: State, parent: Pid, child: Pid)
    requires SlotsOk(s) && parent in s.procs && child !in s.procs
    ensures SameFrames(s, NewChild(s, parent, child), parent) && ChildUnmapped(NewChild(s, parent, child), child)
  {
    assert forall v :: Slot(child, v) !in s.ptes;
  }

  lemma {:induction false} ClearAnonFrames(s: State, parent: Pid)
    requires parent in s.procs
    ensures SameFrames(s, ClearAnon(s, parent), parent)
  {
  }

  lemma {:induction false} SameFramesThen(s: State, s1: State, s2: State, parent: Pid)
    requires SameFrames(s, s1, parent) && SameFrames(s1, s2, parent)
    ensures SameFrames(s, s2, parent)
  {
  }

  lemma {:induction false} ForkFrames(s: State, parent: Pid, child: Pid, vpns: seq<Vpn>, fids: seq<Fid>)
    requires Inv(s) && SlotsOk(s) && MayFork(s, parent, child, vpns, fids) && parent in s.procs && child !in s.procs
    ensures Fork(s, parent, child, vpns, fids).Forked? && SameFrames(s, Fork(s, parent, child, vpns, fids).s, parent)
  {
    hide Inv, SlotsOk, CowPages, Mem, AllCopied, NewChild, ClearAnon, Fork, MayFork, SameFrames, ChildUnmapped;
    var s0 := NewChild(s, parent, child);
    var m := CowPages(s0, parent, child, vpns, fids);
    ForkRuns(s, parent, child, vpns, fids);
    NewChildFrames(s, parent, child);
    CowPagesFrames(s0, parent, child, vpns, fids);
    ClearAnonFrames(m.s, parent);
    SameFramesThen(s, s0, m.s, parent);
    SameFramesThen(s, m.s, ClearAnon(m.s, parent), parent);
  }

  lemma {:induction false} SameMappers(s: State, s': State, parent: Pid, pfn: Pfn)
    requires SameFrames(s, s', parent)
    ensures Mappers(s', pfn) == Mappers(s, pfn)
  {
    forall x ensures x in Mappers(s', pfn) <==> x in Mappers(s, pfn) {
      assert x in Mappers(s', pfn) <==> Maps(s', x, pfn);
      assert x in Mappers(s, pfn) <==> Maps(s, x, pfn);
    }
  }

  /** The surplus of a frame grows by one when it is copied from, and never changes
      otherwise: the reference its former reader held is not given back. */
  lemma {:induction false} StepSurplus(s: State, op: Op, pfn: Pfn)
    requires Inv(s) && Enabled(s, op) && pfn in Step(s, op).pages
    ensures Surplus(Step(s, op), pfn) ==
            if pfn in s.pages then Surplus(s, pfn) + B(CopiesFrom(s, op, pfn)) else 0
  {
    var s' := Step(s, op);
    NoMappersOf(s, pfn);
    hide Inv, Fault, Evict, Store, Fork, Mappers, SameFrames;
    match op
    case FaultOp(slot, write, frame) =>
      FaultFollowed(s, slot, write, frame);
      MappersFollow(s, s', slot, pfn);
      FaultCounts(s, slot, write, frame, pfn);
    case StoreOp(slot, off, v) => StoreSurplus(s, slot, off, v, pfn);
    case LoadOp(slot) =>
    case EvictOp(slot) => EvictSurplus(s, slot, pfn);
    case ForkOp(parent, child, vpns, fids) => ForkSurplus(s, parent, child, vpns, fids, pfn);
  }

  lemma {:induction false} NoMappersOf(s: State, pfn: Pfn)
    requires Inv(s)
    ensures pfn !in s.pages ==> Mappers(s, pfn) == {} && forall x :: !Maps(s, x, pfn)
  {
  }

  lemma {:induction false} StoreSurplus(s: State, slot: Slot, off: nat, v: nat, pfn: Pfn)
    requires Inv(s) && MayStore(s, slot, off) && PteAt(s, slot).pfn in s.pages
    ensures var s' := Store(s, slot, off, v);
            s'.pages.Keys == s.pages.Keys && (pfn in s.pages ==> Surplus(s', pfn) == Surplus(s, pfn))
  {
    assert Mappers(Store(s, slot, off, v), pfn) == Mappers(s, pfn);
  }

  lemma {:induction false} EvictFollowed(s: State, slot: Slot, pfn: Pfn)
    requires PteAt(s, slot).Valid? && PteAt(s, slot).pfn in s.pages && 0 < s.pages[PteAt(s, slot).pfn].refcnt
    requires s.pages[PteAt(s, slot).pfn].use.AnonFork? ==> s.pages[PteAt(s, slot).pfn].owner.OfFork?
    ensures var s' := Evict(s, slot);
            && Followed(s, s', slot) && s'.pages.Keys == s.pages.Keys
            && (pfn in s.pages ==>
                  s'.pages[pfn].refcnt - B(Maps(s', slot, pfn)) == s.pages[pfn].refcnt - B(Maps(s, slot, pfn)))
  {
  }

  lemma {:induction false} EvictSurplus(s: State, slot: Slot, pfn: Pfn)
    requires Inv(s) && PteAt(s, slot).Valid?
    ensures (MappedCounted(s, slot);
             var s' := Evict(s, slot);
             s'.pages.Keys == s.pages.Keys && (pfn in s.pages ==> Surplus(s', pfn) == Surplus(s, pfn)))
  {
    hide Inv, Mappers, Evict, Maps, Followed;
    MappedCounted(s, slot);
    EvictFollowed(s, slot, pfn);
    MappersFollow(s, Evict(s, slot), slot, pfn);
  }

  lemma {:induction false} ForkSurplus(s: State, parent: Pid, child: Pid, vpns: seq<Vpn>, fids: seq<Fid>, pfn: Pfn)
    requires Inv(s) && MayFork(s, parent, child, vpns, fids) && parent in s.procs && child !in s.procs
    ensures Fork(s, parent, child, vpns, fids).Forked?
    ensures var s' := Fork(s, parent, child, vpns, fids).s;
            s'.pages.Keys == s.pages.Keys && (pfn in s.pages ==> Surplus(s', pfn) == Surplus(s, pfn))
  {
    assert SlotsOk(s);
    hide Inv, Fork, Mappers, MayFork, SlotsOk;
    ForkFrames(s, parent, child, vpns, fids);
    SameMappers(s, Fork(s, parent, child, vpns, fids).s, parent, pfn);
  }

  /** How many copies a run makes of frame `pfn`. */
  ghost function Copies(s: State, ops: seq<Op>, pfn: Pfn): nat
    requires Inv(s) && Runs(s, ops)
    decreases |ops|
  {
    if ops == [] then 0
    else
      StepKeepsInv(s, ops[0]);
      B(CopiesFrom(s, ops[0], pfn)) + Copies(Step(s, ops[0]), ops[1..], pfn)
  }

  lemma {:induction false} StepPages(s: State, op: Op)
    requires Inv(s) && Enabled(s, op)
    ensures s.pages.Keys <= Step(s, op).pages.Keys
  {
    assert SlotsOk(s);
    hide Inv, Fault, Fork, Mappers, SlotsOk;
    match op
    case FaultOp(slot, write, frame) => FaultFollowed(s, slot, write, frame);
    case StoreOp(slot, off, v) =>
    case LoadOp(slot) =>
    case EvictOp(slot) =>
    case ForkOp(parent, child, vpns, fids) => ForkFrames(s, parent, child, vpns, fids);
  }

  /** Over every run, a frame's reference count is its mappings plus the number of
      times it was copied from; it is exact if and only if it never was. */
  lemma {:induction false} RunSurplus(s: State, ops: seq<Op>, pfn: Pfn)
    requires Inv(s) && Runs(s, ops) && pfn in Final(s, ops).pages
    ensures Surplus(Final(s, ops), pfn) == (if pfn in s.pages then Surplus(s, pfn) else 0) + Copies(s, ops, pfn)
    decreases |ops|
  {
    if ops != [] {
      hide Inv, Step, Surplus, CopiesFrom, Enabled;
      var s1 := Step(s, ops[0]);
      StepKeepsInv(s, ops[0]);
      RunSurplus(s1, ops[1..], pfn);
      NotCopied(s, ops[0], pfn);
      if pfn in s1.pages {
        StepSurplus(s, ops[0], pfn);
      } else {
        StepPages(s, ops[0]);
      }
    }
  }

  lemma {:induction false} NotCopied(s: State, op: Op, pfn: Pfn)
    requires Inv(s)
    ensures CopiesFrom(s, op, pfn) ==> pfn in s.pages
  {
  }

  // ------------------------------------------------------------------ dirtiness

  predicate WritesTo(s: State, x: Slot, pfn: Pfn) {
    PteAt(s, x) == Valid(pfn, true)
  }

  /** Eviction will see that the frame was written: it is dirty, or some entry still
      maps it writeable and will make it so. */
  ghost predicate Marked(s: State, pfn: Pfn)
    requires pfn in s.pages
  {
    s.pages[pfn].dirty || exists x :: WritesTo(s, x, pfn)
  }

  /** The operation forks the process whose private frame this is before the frame's
      dirtiness was recorded. */
  predicate Forgets(s: State, op: Op, pfn: Pfn)
    requires pfn in s.pages
  {
    op.ForkOp? && s.pages[pfn].owner == OfProcess(op.parent) && !s.pages[pfn].dirty
  }

  lemma {:induction false} FaultMarked(s: State, slot: Slot, write: bool, frame: Option<Pfn>, pfn: Pfn)
    requires Inv(s) && pfn in s.pages && Marked(s, pfn) && (frame.Some? ==> frame.value !in s.pages)
    ensures var s' := Fault(s, slot, write, frame).0;
            pfn in s'.pages && Marked(s', pfn)
  {
    var s' := Fault(s, slot, write, frame).0;
    FaultFollowed(s, slot, write, frame);
    FaultDirty(s, slot, write, frame, pfn);
    hide Inv, Fault;
    if !s.pages[pfn].dirty {
      var x :| WritesTo(s, x, pfn);
      assert WritesTo(s', x, pfn);
    }
  }

  lemma {:induction false} FaultDirty(s: State, slot: Slot, write: bool, frame: Option<Pfn>, pfn: Pfn)
    requires Inv(s) && pfn in s.pages && (frame.Some? ==> frame.value !in s.pages)
    ensures var s' := Fault(s, slot, write, frame).0;
            pfn in s'.pages && s'.pages[pfn].dirty == s.pages[pfn].dirty
            && (WritesTo(s, slot, pfn) ==> WritesTo(s', slot, pfn))
  {
    hide ForksOk, PagesOk, CountsOk, RefcntsOk, StatsOk, AnonOk;
    CopyableForks(s);
  }

  lemma {:induction false} EvictMarked(s: State, slot: Slot, pfn: Pfn)
    requires PteAt(s, slot).Valid? && PteAt(s, slot).pfn in s.pages && 0 < s.pages[PteAt(s, slot).pfn].refcnt
    requires s.pages[PteAt(s, slot).pfn].use.AnonFork? ==> s.pages[PteAt(s, slot).pfn].owner.OfFork?
    requires pfn in s.pages && Marked(s, pfn)
    ensures Marked(Evict(s, slot), pfn)
  {
    if !s.pages[pfn].dirty {
      var x :| WritesTo(s, x, pfn);
      assert x == slot || WritesTo(Evict(s, slot), x, pfn);
    }
  }

  lemma {:induction false} StoreMarked(s: State, slot: Slot, off: nat, v: nat, pfn: Pfn)
    requires MayStore(s, slot, off) && PteAt(s, slot).pfn in s.pages && pfn in s.pages
    ensures var s' := Store(s, slot, off, v);
            && (Marked(s, pfn) ==> Marked(s', pfn)) && Marked(s', PteAt(s, slot).pfn)
  {
    var s' := Store(s, slot, off, v);
    assert forall x :: PteAt(s', x) == PteAt(s, x);
    assert WritesTo(s', slot, PteAt(s, slot).pfn);
    if Marked(s, pfn) && !s.pages[pfn].dirty {
      var x :| WritesTo(s, x, pfn);
      assert WritesTo(s', x, pfn);
    }
  }

  /** A writeable entry maps a private frame, and it is its own process's. */
  lemma {:induction false} WriterOwns(s: State, x: Slot, pfn: Pfn)
    requires SlotsOk(s) && WritesTo(s, x, pfn)
    ensures pfn in s.pages && s.pages[pfn].owner == OfProcess(x.pid) && x in PrivateSlots(s, x.pid)
  {
  }

  lemma {:induction false} NoneCountedNone(s: State, pid: Pid)
    requires Inv(s) && pid in s.procs && s.procs[pid].nAnon == 0
    ensures SlotsOk(s) && PrivateSlots(s, pid) == {}
  {
  }

  /** After a fork the parent has no private page left. */
  lemma {:induction false} ForkNoPrivates(s: State, parent: Pid, child: Pid, vpns: seq<Vpn>, fids: seq<Fid>)
    requires Inv(s) && MayFork(s, parent, child, vpns, fids) && parent in s.procs
    ensures Fork(s, parent, child, vpns, fids).Forked?
    ensures SlotsOk(Fork(s, parent, child, vpns, fids).s)
    ensures PrivateSlots(Fork(s, parent, child, vpns, fids).s, parent) == {}
  {
    hide Inv, SlotsOk, CowPages, Mem, AllCopied, NewChild, Fork, MayFork, PrivateSlots;
    ForkRuns(s, parent, child, vpns, fids);
    NoneCountedNone(Fork(s, parent, child, vpns, fids).s, parent);
  }

  lemma {:induction false} WritersAfter(s: State, s': State, parent: Pid, pfn: Pfn, y: Slot)
    requires SlotsOk(s) && SlotsOk(s') && SameFrames(s, s', parent) && PrivateSlots(s', parent) == {}
    requires pfn in s.pages && s.pages[pfn].owner == OfProcess(parent)
    ensures !WritesTo(s', y, pfn)
  {
    hide SlotsOk, PrivateSlots;
    if WritesTo(s', y, pfn) {
      WriterOwns(s', y, pfn);
      assert Maps(s', y, pfn) && Maps(s, y, pfn);
      if y.pid != parent {
        assert PteAt(s', y) == PteAt(s, y);
        WriterOwns(s, y, pfn);
      }
    }
  }

  lemma {:induction false} ForkMarked(s: State, parent: Pid, child: Pid, vpns: seq<Vpn>, fids: seq<Fid>, pfn: Pfn)
    requires Inv(s) && SlotsOk(s) && MayFork(s, parent, child, vpns, fids) && parent in s.procs && child !in s.procs
    requires pfn in s.pages && Marked(s, pfn)
    ensures Fork(s, parent, child, vpns, fids).Forked?
    ensures var s' := Fork(s, parent, child, vpns, fids).s;
            && pfn in s'.pages
            && (Marked(s', pfn) <==> !Forgets(s, ForkOp(parent, child, vpns, fids), pfn))
  {
    hide Inv, SlotsOk, Fork, MayFork, PrivateSlots;
    ForkFrames(s, parent, child, vpns, fids);
    ForkNoPrivates(s, parent, child, vpns, fids);
    var s' := Fork(s, parent, child, vpns, fids).s;
    if !s.pages[pfn].dirty {
      var x :| WritesTo(s, x, pfn);
      WriterOwns(s, x, pfn);
      if x.pid != parent {
        assert WritesTo(s', x, pfn);
      } else {
        forall y ensures !WritesTo(s', y, pfn) {
          WritersAfter(s, s', parent, pfn, y);
        }
      }
    }
  }

  /** A frame that eviction would know to be written stays so under every operation
      but one: forking its process before the dirtiness is recorded in the frame. */
  lemma {:induction false} StepMarked(s: State, op: Op, pfn: Pfn)
    requires Inv(s) && Enabled(s, op) && pfn in s.pages && Marked(s, pfn)
    ensures pfn in Step(s, op).pages && (Marked(Step(s, op), pfn) <==> !Forgets(s, op, pfn))
  {
    assert SlotsOk(s);
    hide Inv, Fault, Evict, Store, Fork, SlotsOk, Marked;
    match op
    case FaultOp(slot, write, frame) => FaultMarked(s, slot, write, frame, pfn);
    case StoreOp(slot, off, v) =>
      StoreKeeps(s, slot, off, v);
      StoreSurplus(s, slot, off, v, pfn);
      StoreMarked(s, slot, off, v, pfn);
    case LoadOp(slot) =>
    case EvictOp(slot) =>
      MappedCounted(s, slot);
      EvictSurplus(s, slot, pfn);
      EvictMarked(s, slot, pfn);
    case ForkOp(parent, child, vpns, fids) => ForkMarked(s, parent, child, vpns, fids, pfn);
  }

  lemma {:induction false} RunsOn(s: State, op: Op, ops: seq<Op>)
    requires Inv(s) && Enabled(s, op) && Inv(Step(s, op)) && Runs(Step(s, op), ops)
    ensures Runs(s, [op] + ops) && Final(s, [op] + ops) == Final(Step(s, op), ops)
  {
    assert ([op] + ops)[1..] == ops;
  }

  /** One process with one writeable mapping. */
  function OneProcess(): State {
    State(map[], map[], map[], map[0 := Proc(map[0 := true], 0)], 0, 0)
  }

  function ForkThenEvict(): seq<Op> {
    [ForkOp(0, 1, [0], [0])] + ([EvictOp(Slot(0, 0))] + [])
  }

  function Forgetful(): seq<Op> {
    [FaultOp(Slot(0, 0), true, Some(0))] + ([StoreOp(Slot(0, 0), 0, 7)] + ForkThenEvict())
  }

  /** The state after the page is faulted in and written. */
  function Written(): State {
    Store(ZeroFill(OneProcess(), Slot(0, 0), true, 0), Slot(0, 0), 0, 7)
  }

  lemma {:induction false} ForkThenEvictRuns()
    requires Inv(Written())
    ensures Runs(Written(), ForkThenEvict())
    ensures var s := Final(Written(), ForkThenEvict());
            && 0 in s.pages && s.pages[0].bytes[0] == 7 && s.pages[0].refcnt == 0 && !s.pages[0].dirty
  {
    var fork, evict := ForkOp(0, 1, [0], [0]), EvictOp(Slot(0, 0));
    var s := Step(Written(), fork);
    assert s.ptes[Slot(0, 0)] == Valid(0, false);
    StepKeepsInv(Written(), fork);
    StepKeepsInv(s, evict);
    RunsOn(s, evict, []);
    RunsOn(Written(), fork, [evict] + []);
  }

  /** Write a page, fork, let the page be evicted: the frame holds the written byte,
      nothing maps it, and it is not dirty. */
  lemma {:induction false} ForkForgetsWrite()
    ensures Inv(OneProcess()) && Runs(OneProcess(), Forgetful())
    ensures var s := Final(OneProcess(), Forgetful());
            && 0 in s.pages && s.pages[0].bytes[0] == 7 && s.pages[0].refcnt == 0 && !s.pages[0].dirty
  {
    InitGood(OneProcess());
    var fault, store := FaultOp(Slot(0, 0), true, Some(0)), StoreOp(Slot(0, 0), 0, 7);
    var s := Step(OneProcess(), fault);
    StepKeepsInv(OneProcess(), fault);
    StepKeepsInv(s, store);
    assert Step(s, store) == Written();
    hide Inv, Step, Written, Enabled, ForkThenEvict, Runs, Final;
    ForkThenEvictRuns();
    RunsOn(s, store, ForkThenEvict());
    RunsOn(OneProcess(), fault, [store] + ForkThenEvict());
  }

  /** Touch a page, fork, write it: the parent gets a copy, and the frame it left, now read
      by the child alone, keeps the parent's reference. */
  function Leaky(): seq<Op> {
    [FaultOp(Slot(0, 0), true, Some(0))] + ([ForkOp(0, 1, [0], [0])] + ([FaultOp(Slot(0, 0), true, Some(1))] + []))
  }

  function Touched(): State {
    ZeroFill(OneProcess(), Slot(0, 0), true, 0)
  }

  lemma {:induction false} TouchedForks()
    requires Inv(Touched())
    ensures Enabled(Touched(), ForkOp(0, 1, [0], [0]))
    ensures var s := Step(Touched(), ForkOp(0, 1, [0], [0]));
            && PteAt(s, Slot(0, 0)) == Valid(0, false) && 0 in s.pages && 1 !in s.pages && s.pages[0].use.AnonFork?
            && s.pages[0].owner == OfFork(0) && 0 in s.forks && s.forks[0].refcount == 2
            && 0 in s.procs && 0 in s.procs[0].vads && s.procs[0].vads[0]
  {
  }

  lemma {:induction false} TouchedIs()
    ensures Enabled(OneProcess(), FaultOp(Slot(0, 0), true, Some(0))) && 0 in Touched().pages
    ensures 0 !in OneProcess().pages
    ensures Step(OneProcess(), FaultOp(Slot(0, 0), true, Some(0))) == Touched()
  {
  }

  lemma {:induction false} SharedCopies(s: State)
    requires Inv(s) && PteAt(s, Slot(0, 0)) == Valid(0, false) && 0 in s.pages && 1 !in s.pages
    requires s.pages[0].use.AnonFork?
    requires s.pages[0].owner == OfFork(0) && 0 in s.forks && s.forks[0].refcount == 2
    requires 0 in s.procs && 0 in s.procs[0].vads && s.procs[0].vads[0]
    ensures Enabled(s, FaultOp(Slot(0, 0), true, Some(1))) && CopiesFrom(s, FaultOp(Slot(0, 0), true, Some(1)), 0)
  {
    hide Inv;
  }

  lemma {:induction false} ForkLeaks()
    ensures Inv(OneProcess()) && Runs(OneProcess(), Leaky())
    ensures 0 in Final(OneProcess(), Leaky()).pages && Surplus(Final(OneProcess(), Leaky()), 0) == 1
  {
    hide Inv, Step, Enabled, Runs, Final, CopiesFrom, Touched, Surplus, OneProcess;
    OneProcessStarts();
    InitGood(OneProcess());
    var fault, fork := FaultOp(Slot(0, 0), true, Some(0)), ForkOp(0, 1, [0], [0]);
    var write := FaultOp(Slot(0, 0), true, Some(1));
    var s1 := Touched();
    TouchedIs();
    StepKeepsInv(OneProcess(), fault);
    TouchedForks();
    StepKeepsInv(s1, fork);
    var s2 := Step(s1, fork);
    SharedCopies(s2);
    StepKeepsInv(s2, write);
    var s3 := Step(s2, write);
    StepPages(s2, write);
    StepSurplus(OneProcess(), fault, 0);
    StepSurplus(s1, fork, 0);
    StepSurplus(s2, write, 0);
    NotFork(s1, fork, 0);
    RunsNone(s3);
    RunsOn(s2, write, []);
    RunsOn(s1, fork, [write] + []);
    RunsOn(OneProcess(), fault, [fork] + ([write] + []));
  }

  lemma {:induction false} OneProcessStarts()
    ensures Init(OneProcess())
  {
  }

  lemma {:induction false} NotFork(s: State, op: Op, pfn: Pfn)
    requires Inv(s) && op.ForkOp?
    ensures !CopiesFrom(s, op, pfn)
  {
  }

  lemma {:induction false} RunsNone(s: State)
    requires Inv(s)
    ensures Runs(s, []) && Final(s, []) == s
  {
  }
}
