/**
  Copy-on-write fork refines eager copying: over every run of faults, stores,
  loads, evictions and forks, each process reads what it would read if fork had
  copied all of the parent's private memory.
 */
module ForkRefinement {
  import opened Queues
  import opened Options
  import opened ForkCow

  // ------------------------------------------------------------- page faults

  /** Every page fault keeps the invariant and changes nothing anybody reads. */
  lemma {:induction false} FaultQuiet(s: State, slot: Slot, write: bool, frame: Option<Pfn>)
    requires Inv(s) && (frame.Some? ==> frame.value !in s.pages)
    ensures Quiet(s, Fault(s, slot, write, frame).0)
  {
    var s' := Fault(s, slot, write, frame).0;
    FaultCase(s, slot, write, frame);
    QuietRefl(s);
    assert Counted(s);
    hide Inv, Quiet, Counted, Fault, MapsShared, ZeroFill, TransFault, ForkFault, DirtyFault, TakeOver, CopyFork;
    match PteAt(s, slot)
    case Zero =>
      if s' != s {
        ZeroFillQuiet(s, slot, write, frame.value);
      }
    case Trans(pfn) =>
      if s' != s {
        TransFaultQuiet(s, slot, pfn, write);
      }
    case ForkPtr(fid) =>
      if s' != s {
        ForkFaultQuiet(s, slot, fid);
      }
    case Valid(pfn, w) =>
      if s' != s {
        if s.pages[pfn].use.AnonPrivate? {
          DirtyFaultQuiet(s, slot, pfn);
        } else {
          var fid := s.pages[pfn].owner.fid;
          SharedCount(s, slot, pfn, fid);
          if s.forks[fid].refcount == 1 {
            TakeOverQuiet(s, slot, pfn, fid);
          } else {
            CopyForkQuiet(s, slot, pfn, fid, frame.value);
          }
        }
      }
  }

  /** What a fault that does something has found and does. */
  lemma {:induction false} FaultCase(s: State, slot: Slot, write: bool, frame: Option<Pfn>)
    requires Inv(s)
    ensures var s' := Fault(s, slot, write, frame).0;
            s' != s ==>
              match PteAt(s, slot)
              case Zero => frame.Some? && s' == ZeroFill(s, slot, write, frame.value) && slot !in s.ptes
                           && slot.pid in s.procs && slot.vpn in s.procs[slot.pid].vads
              case Trans(pfn) => s' == TransFault(s, slot, pfn, write) && pfn in s.pages
              case ForkPtr(fid) => s' == ForkFault(s, slot, fid) && fid in s.forks && s.forks[fid].pfn in s.pages
              case Valid(pfn, w) =>
                && !w && pfn in s.pages
                && if s.pages[pfn].use.AnonPrivate? then s' == DirtyFault(s, slot, pfn)
                   else
                     && s.pages[pfn].owner.OfFork?
                     && var fid := s.pages[pfn].owner.fid;
                        && MapsShared(s, slot, pfn, fid)
                        && if s.forks[fid].refcount == 1 then s' == TakeOver(s, slot, pfn, fid)
                           else frame.Some? && s' == CopyFork(s, slot, pfn, fid, frame.value)
  {
    hide ForksOk, PagesOk, CountsOk, RefcntsOk, StatsOk, AnonOk, ZeroFill, TransFault, ForkFault, DirtyFault,
      TakeOver, CopyFork;
    CopyableForks(s);
  }

  /** What the branches of the fault handler index into is there. */
  lemma {:induction false} CopyableForks(s: State)
    requires ForksOk(s) && CountsOk(s)
    ensures forall fid :: fid in s.forks ==> s.forks[fid].pfn in s.pages && 0 < s.forks[fid].refcount
  {
  }

  lemma {:induction false} SharedCount(s: State, slot: Slot, pfn: Pfn, fid: Fid)
    requires Counted(s) && MapsShared(s, slot, pfn, fid)
    ensures if s.forks[fid].refcount == 1 then Refs(s, fid) == {slot} else 1 < s.forks[fid].refcount
  {
    assert slot in Refs(s, fid);
    if s.forks[fid].refcount == 1 {
      OnlyRef(s, slot, fid);
    }
  }

  lemma {:induction false} QuietRefl(s: State)
    requires Inv(s)
    ensures Quiet(s, s)
  {
  }

  /** How many faults an access still needs before the hardware lets it through. */
  function Rank(pte: Pte, write: bool): nat {
    match pte
    case Valid(_, w) => if write && !w then 1 else 0
    case ForkPtr(_) => if write then 2 else 1
    case Trans(_) => 1
    case Zero => 1
  }

  /** A fault that reports success brings the access closer: a read needs one, a
      write to a shared page at most two. */
  lemma {:induction false} FaultProgress(s: State, slot: Slot, write: bool, frame: Option<Pfn>)
    requires Inv(s)
    ensures var (s', r) := Fault(s, slot, write, frame);
            && (r.Ok? && 0 < Rank(PteAt(s, slot), write) ==> Rank(PteAt(s', slot), write) < Rank(PteAt(s, slot), write))
            && (!r.Ok? ==> s' == s)
            && (frame.Some? ==> !r.PageShortage?)
  {
    hide ForksOk, PagesOk, CountsOk, RefcntsOk, StatsOk, AnonOk;
    CopyableForks(s);
  }

  /** The process has memory at the page. */
  predicate HasMemory(s: State, slot: Slot) {
    slot.pid in s.procs && slot.vpn in s.procs[slot.pid].vads
  }

  /** The mapping allows the access. */
  predicate Permitted(s: State, slot: Slot, write: bool) {
    HasMemory(s, slot) && (write ==> s.procs[slot.pid].vads[slot.vpn])
  }

  /** The access cannot be had without a new frame: nothing is there yet, or a page read by
      others too is to be written. */
  predicate NeedsFrame(s: State, slot: Slot, write: bool) {
    slot !in s.ptes
    || (write && s.ptes[slot].Valid? && !s.ptes[slot].writeable
        && exists fid :: fid in s.forks && s.forks[fid].pfn == s.ptes[slot].pfn && 1 < s.forks[fid].refcount)
  }

  /** The hardware lets the access through. */
  predicate Lets(s: State, slot: Slot, write: bool) {
    slot in s.ptes && s.ptes[slot].Valid? && (write ==> s.ptes[slot].writeable)
  }

  lemma {:induction false} OneForkPage(s: State, slot: Slot, pfn: Pfn)
    requires Inv(s) && slot in s.ptes && s.ptes[slot] == Valid(pfn, false) && pfn in s.pages
    ensures s.pages[pfn].use.AnonPrivate? ==> forall fid :: fid in s.forks ==> s.forks[fid].pfn != pfn
    ensures !s.pages[pfn].use.AnonPrivate? ==>
              && s.pages[pfn].owner.OfFork? && s.pages[pfn].owner.fid in s.forks
              && s.forks[s.pages[pfn].owner.fid].pfn == pfn
              && forall fid :: fid in s.forks && s.forks[fid].pfn == pfn ==> fid == s.pages[pfn].owner.fid
  {
    assert PteOk(s, slot, s.ptes[slot]);
    forall fid | fid in s.forks && s.forks[fid].pfn == pfn
      ensures !s.pages[pfn].use.AnonPrivate? && fid == s.pages[pfn].owner.fid
    {
      assert ForkOk(s, fid, s.forks[fid]);
    }
  }

  /** What a fault answers: a failure exactly where the process has no memory, a fatal error
      exactly on a write the mapping forbids, a shortage exactly where a new frame is
      needed and none is to be had, and success in every other case. */
  lemma {:induction false} FaultAnswer(s: State, slot: Slot, write: bool, frame: Option<Pfn>)
    requires Inv(s)
    ensures var r := Fault(s, slot, write, frame).1;
            && (r.Failure? <==> !HasMemory(s, slot))
            && (r.Fatal? <==> HasMemory(s, slot) && !Permitted(s, slot, write))
            && (r.PageShortage? <==> Permitted(s, slot, write) && frame.None? && NeedsFrame(s, slot, write))
            && (r.Ok? <==> Permitted(s, slot, write) && (frame.Some? || !NeedsFrame(s, slot, write)))
  {
    hide ForksOk, PagesOk, CountsOk, RefcntsOk, StatsOk, AnonOk, ZeroFill, TransFault, ForkFault, DirtyFault, TakeOver,
      CopyFork, NeedsFrame;
    CopyableForks(s);
    NeedsFrameIs(s, slot, write);
  }

  lemma {:induction false} NeedsFrameIs(s: State, slot: Slot, write: bool)
    requires Inv(s)
    ensures NeedsFrame(s, slot, write) <==>
            match PteAt(s, slot)
            case Zero => true
            case Valid(pfn, w) =>
              && write && !w && pfn in s.pages && !s.pages[pfn].use.AnonPrivate? && s.pages[pfn].owner.OfFork?
              && s.pages[pfn].owner.fid in s.forks && s.forks[s.pages[pfn].owner.fid].refcount != 1
            case _ => false
  {
    assert slot in s.ptes ==> PteOk(s, slot, s.ptes[slot]);
    CopyableForks(s);
    if slot in s.ptes && s.ptes[slot].Valid? && !s.ptes[slot].writeable {
      OneForkPage(s, slot, s.ptes[slot].pfn);
    }
    hide SlotsOk, ForksOk, PagesOk, CountsOk, RefcntsOk, StatsOk, AnonOk;
  }

  lemma {:induction false} FaultVads(s: State, slot: Slot, write: bool, frame: Option<Pfn>)
    requires Inv(s)
    ensures var s' := Fault(s, slot, write, frame).0;
            && s'.procs.Keys == s.procs.Keys && (forall p :: p in s.procs ==> s'.procs[p].vads == s.procs[p].vads)
            && (Lets(s, slot, write) ==> s' == s)
  {
    hide ForksOk, PagesOk, CountsOk, RefcntsOk, StatsOk, AnonOk;
    CopyableForks(s);
  }

  lemma {:induction false} RankLets(s: State, slot: Slot, write: bool)
    requires SlotsOk(s)
    ensures Rank(PteAt(s, slot), write) == 0 <==> Lets(s, slot, write)
  {
    assert slot in s.ptes ==> PteOk(s, slot, s.ptes[slot]);
  }

  /** A permitted access with frames to be had: one fault lets a read through, and two let
      any access through. */
  lemma {:induction false} TwoFaults(s: State, slot: Slot, write: bool, one: Pfn, two: Pfn)
    requires Inv(s) && Permitted(s, slot, write) && one !in s.pages && two !in Fault(s, slot, write, Some(one)).0.pages
    ensures var (s1, r1) := Fault(s, slot, write, Some(one));
            && r1.Ok? && Inv(s1) && (!write ==> Lets(s1, slot, write))
            && var (s2, r2) := Fault(s1, slot, write, Some(two));
               r2.Ok? && Inv(s2) && Lets(s2, slot, write)
  {
    assert SlotsOk(s);
    hide Inv, Fault, SlotsOk, Lets, Mem;
    var s1 := Fault(s, slot, write, Some(one)).0;
    OneFault(s, slot, write, one);
    OneFault(s1, slot, write, two);
  }

  lemma {:induction false} OneFault(s: State, slot: Slot, write: bool, frame: Pfn)
    requires Inv(s) && Permitted(s, slot, write) && frame !in s.pages
    ensures var (s', r) := Fault(s, slot, write, Some(frame));
            && r.Ok? && Inv(s') && Permitted(s', slot, write)
            && Rank(PteAt(s', slot), write) <= (if write then 1 else 0)
            && (Rank(PteAt(s, slot), write) <= 1 ==> Lets(s', slot, write))
            && (!write ==> Lets(s', slot, write))
  {
    FaultQuiet(s, slot, write, Some(frame));
    FaultAnswer(s, slot, write, Some(frame));
    FaultProgress(s, slot, write, Some(frame));
    FaultVads(s, slot, write, Some(frame));
    var s' := Fault(s, slot, write, Some(frame)).0;
    assert SlotsOk(s) && SlotsOk(s');
    hide Inv, Fault, SlotsOk, Lets, NeedsFrame, Quiet;
    RankLets(s, slot, write);
    RankLets(s', slot, write);
  }

  // ------------------------------------------------------------------ stores

  ghost predicate MayStore(s: State, slot: Slot, off: nat) {
    PteAt(s, slot).Valid? && PteAt(s, slot).writeable && off < PGSIZE
  }

  /** A store is seen by the process that makes it, at that page, and by no other. */
  lemma {:induction false} StoreSeen(s: State, slot: Slot, off: nat, v: nat)
    requires SlotsOk(s) && ForksOk(s) && MayStore(s, slot, off)
    ensures PteAt(s, slot).pfn in s.pages
    ensures var s' := Store(s, slot, off, v);
            Mem(s', slot) == Mem(s, slot)[off := v] && (forall x :: x != slot ==> Mem(s', x) == Mem(s, x))
  {
  }

  lemma {:induction false} StoreCore(s: State, slot: Slot, off: nat, v: nat)
    requires Core(s) && MayStore(s, slot, off)
    ensures PteAt(s, slot).pfn in s.pages
    ensures Core(Store(s, slot, off, v))
  {
  }

  lemma {:induction false} StoreCounts(s: State, slot: Slot, off: nat, v: nat)
    requires Counted(s) && AnonOk(s, 0, 0) && MayStore(s, slot, off) && PteAt(s, slot).pfn in s.pages
    ensures Counted(Store(s, slot, off, v)) && AnonOk(Store(s, slot, off, v), 0, 0)
  {
    var s' := Store(s, slot, off, v);
    StoreSets(s, slot, off, v);
    hide Refs, PrivateSlots, Mappers, PagesOf;
  }

  lemma {:induction false} StoreSets(s: State, slot: Slot, off: nat, v: nat)
    requires MayStore(s, slot, off) && PteAt(s, slot).pfn in s.pages
    ensures var s' := Store(s, slot, off, v);
            && (forall f :: Refs(s', f) == Refs(s, f)) && (forall p :: PrivateSlots(s', p) == PrivateSlots(s, p))
            && (forall p :: Mappers(s', p) == Mappers(s, p)) && (forall u :: PagesOf(s', u) == PagesOf(s, u))
  {
    var s' := Store(s, slot, off, v);
    assert forall f :: Refs(s', f) == Refs(s, f);
    assert forall p :: PrivateSlots(s', p) == PrivateSlots(s, p);
    assert forall p :: Mappers(s', p) == Mappers(s, p);
    assert forall u :: PagesOf(s', u) == PagesOf(s, u);
  }

  lemma {:induction false} StoreKeeps(s: State, slot: Slot, off: nat, v: nat)
    requires Inv(s) && MayStore(s, slot, off)
    ensures PteAt(s, slot).pfn in s.pages
    ensures var s' := Store(s, slot, off, v);
            Inv(s') && Mem(s', slot) == Mem(s, slot)[off := v] && (forall x :: x != slot ==> Mem(s', x) == Mem(s, x))
  {
    hide SlotsOk, ForksOk, PagesOk, Counted, AnonOk, Mem, Store, MayStore;
    StoreCore(s, slot, off, v);
    StoreSeen(s, slot, off, v);
    StoreCounts(s, slot, off, v);
  }

  // -------------------------------------------------------------------- fork

  /** What the caller of `vm_fork` provides: a new process, the parent's pages in
      some order, and as many new fork pages as the parent counts private pages. */
  ghost predicate MayFork(s: State, parent: Pid, child: Pid, vpns: seq<Vpn>, fids: seq<Fid>) {
    && parent in s.procs && child !in s.procs
    && Distinct(vpns) && (forall v :: v in vpns <==> v in s.procs[parent].vads)
    && Distinct(fids) && (forall f :: f in fids ==> f !in s.forks) && |fids| == s.procs[parent].nAnon
  }

  /** `s'` differs from `s` in its process records only. */
  ghost predicate ProcsOnly(s: State, s': State) {
    s' == s.(procs := s'.procs)
  }

  lemma {:induction false} ProcsOnlyMem(s: State, s': State)
    requires ProcsOnly(s, s')
    ensures forall x :: Mem(s', x) == Mem(s, x) && PteAt(s', x) == PteAt(s, x)
    ensures forall p :: PrivateSlots(s', p) == PrivateSlots(s, p)
  {
    assert forall x :: PteAt(s', x) == PteAt(s, x);
  }

  lemma {:induction false} ProcsOnlyCounted(s: State, s': State)
    requires ProcsOnly(s, s') && Counted(s)
    ensures Counted(s')
  {
    assert forall f :: Refs(s', f) == Refs(s, f);
    assert forall p :: Mappers(s', p) == Mappers(s, p);
    assert forall u :: PagesOf(s', u) == PagesOf(s, u);
  }

  lemma {:induction false} ProcsOnlyRecords(s: State, s': State)
    requires ProcsOnly(s, s') && ForksOk(s) && PagesOk(s)
    ensures ForksOk(s') && PagesOk(s')
  {
  }

  lemma {:induction false} ProcsOnlySlots(s: State, s': State)
    requires ProcsOnly(s, s') && SlotsOk(s)
    requires forall p :: p in s.procs ==> p in s'.procs && s'.procs[p].vads == s.procs[p].vads
    ensures SlotsOk(s')
  {
  }

  lemma {:induction false} NewChildAnon(s: State, parent: Pid, child: Pid)
    requires SlotsOk(s) && AnonOk(s, 0, 0) && parent in s.procs && child !in s.procs
    ensures AnonOk(NewChild(s, parent, child), parent, 0)
  {
    ProcsOnlyMem(s, NewChild(s, parent, child));
    assert PrivateSlots(s, child) == {};
  }

  lemma {:induction false} NewChildKeeps(s: State, parent: Pid, child: Pid)
    requires Inv(s) && parent in s.procs && child !in s.procs
    ensures Tallied(NewChild(s, parent, child), parent, 0)
  {
    var s' := NewChild(s, parent, child);
    hide SlotsOk, ForksOk, PagesOk, Counted, AnonOk;
    ProcsOnlyCounted(s, s');
    ProcsOnlyRecords(s, s');
    ProcsOnlySlots(s, s');
    NewChildAnon(s, parent, child);
  }

  lemma {:induction false} ForkStarts(s: State, parent: Pid, child: Pid, vpns: seq<Vpn>, fids: seq<Fid>)
    requires Inv(s) && MayFork(s, parent, child, vpns, fids)
    ensures var s' := NewChild(s, parent, child);
            && Tallied(s', parent, 0) && (forall x :: Mem(s', x) == Mem(s, x))
            && ToDo(s', parent, child, vpns) && Supply(s', parent, fids)
  {
    NewChildKeeps(s, parent, child);
    ProcsOnlyMem(s, NewChild(s, parent, child));
    assert forall x :: x in PrivateSlots(s, parent) ==> x in s.ptes;
    assert forall v :: Slot(child, v) !in s.ptes;
  }

  function ClearAnon(s: State, parent: Pid): State
    requires parent in s.procs
  {
    s.(procs := s.procs[parent := s.procs[parent].(nAnon := 0)])
  }

  lemma {:induction false} ClearAnonOk(s: State, parent: Pid, n: nat)
    requires AnonOk(s, parent, n) && PrivateSlots(s, parent) == {} && parent in s.procs
    ensures AnonOk(ClearAnon(s, parent), 0, 0)
  {
    ProcsOnlyMem(s, ClearAnon(s, parent));
  }

  lemma {:induction false} ForkEnds(s: State, parent: Pid, n: nat)
    requires Tallied(s, parent, n) && PrivateSlots(s, parent) == {} && parent in s.procs
    ensures Inv(ClearAnon(s, parent)) && (forall x :: Mem(ClearAnon(s, parent), x) == Mem(s, x))
  {
    var s' := ClearAnon(s, parent);
    hide SlotsOk, ForksOk, PagesOk, Counted, AnonOk, Mem, PteAt, PrivateSlots;
    ProcsOnlyMem(s, s');
    ProcsOnlyCounted(s, s');
    ProcsOnlyRecords(s, s');
    ProcsOnlySlots(s, s');
    ClearAnonOk(s, parent, n);
  }

  lemma {:induction false} ParentStays(s: State, s': State, parent: Pid, child: Pid, vpns: seq<Vpn>)
    requires parent in s.procs && AllCopied(NewChild(s, parent, child), s', parent, child, vpns)
    ensures parent in s'.procs
  {
  }

  /** The three stages of a fork: the new process, the pages, the parent's count. */
  lemma {:induction false} ForkRuns(s: State, parent: Pid, child: Pid, vpns: seq<Vpn>, fids: seq<Fid>)
    requires Inv(s) && parent in s.procs && MayFork(s, parent, child, vpns, fids)
    ensures var s0 := NewChild(s, parent, child);
            var m := CowPages(s0, parent, child, vpns, fids);
            && m.Forked? && parent in m.s.procs
            && Fork(s, parent, child, vpns, fids) == Forked(ClearAnon(m.s, parent), [])
            && Inv(ClearAnon(m.s, parent)) && AllCopied(s0, m.s, parent, child, vpns)
            && (forall x :: Mem(ClearAnon(m.s, parent), x) == Mem(m.s, x)) && (forall x :: Mem(s0, x) == Mem(s, x))
  {
    hide Inv, Tallied, Supply, ToDo, CowPages, Mem, PrivateSlots, AllCopied, NewChild, MayFork;
    var s0 := NewChild(s, parent, child);
    ForkStarts(s, parent, child, vpns, fids);
    CowPagesRuns(s0, parent, child, vpns, fids, 0);
    var m := CowPages(s0, parent, child, vpns, fids);
    ParentStays(s, m.s, parent, child, vpns);
    ForkEnds(m.s, parent, |fids|);
  }

  /** A fork trips no assertion, keeps the invariant, gives the child the parent's
      memory, and changes nobody else's. */
  lemma {:induction false} ForkKeeps(s: State, parent: Pid, child: Pid, vpns: seq<Vpn>, fids: seq<Fid>)
    requires Inv(s) && MayFork(s, parent, child, vpns, fids)
    ensures var r := Fork(s, parent, child, vpns, fids);
            && r.Forked? && Inv(r.s)
            && (forall v :: Mem(r.s, Slot(child, v)) == Mem(s, Slot(parent, v)))
            && (forall x: Slot :: x.pid != child ==> Mem(r.s, x) == Mem(s, x))
  {
    assert SlotsOk(s);
    hide Inv, SlotsOk, Fork, CowPages, Mem, ClearAnon;
    ForkRuns(s, parent, child, vpns, fids);
    Unmapped(s, NewChild(s, parent, child), parent, child, vpns);
    var r := Fork(s, parent, child, vpns, fids);
    forall v ensures Mem(r.s, Slot(child, v)) == Mem(s, Slot(parent, v)) {
      if v !in vpns {
        assert Mem(s, Slot(parent, v)) == ZeroPage();
      }
    }
  }

  /** A page the parent has not mapped reads as zero, before and after. */
  lemma {:induction false} Unmapped(s: State, s0: State, parent: Pid, child: Pid, vpns: seq<Vpn>)
    requires SlotsOk(s) && parent in s.procs && child !in s.procs && s0 == NewChild(s, parent, child)
    requires forall v :: v in s.procs[parent].vads ==> v in vpns
    ensures forall v :: v !in vpns ==> Mem(s, Slot(parent, v)) == ZeroPage() && Mem(s0, Slot(child, v)) == ZeroPage()
  {
    assert forall v :: v !in vpns ==> Slot(parent, v) !in s.ptes;
    assert forall v :: Slot(child, v) !in s.ptes;
  }

  // -------------------------------------------------------------- whole runs

  datatype Op =
    | FaultOp(slot: Slot, write: bool, frame: Option<Pfn>)
    | StoreOp(slot: Slot, off: nat, v: nat)
    | LoadOp(slot: Slot)
    | EvictOp(slot: Slot)
    | ForkOp(parent: Pid, child: Pid, vpns: seq<Vpn>, fids: seq<Fid>)

  /** When each operation can happen: a store or load needs an entry that lets it
      through, an eviction a valid one, the page allocator gives unused frames. */
  ghost predicate Enabled(s: State, op: Op) {
    match op
    case FaultOp(slot, write, frame) => frame.Some? ==> frame.value !in s.pages
    case StoreOp(slot, off, v) => MayStore(s, slot, off)
    case LoadOp(slot) => PteAt(s, slot).Valid?
    case EvictOp(slot) => PteAt(s, slot).Valid?
    case ForkOp(parent, child, vpns, fids) => MayFork(s, parent, child, vpns, fids)
  }

  ghost function Step(s: State, op: Op): State
    requires Inv(s) && Enabled(s, op)
  {
    match op
    case FaultOp(slot, write, frame) => Fault(s, slot, write, frame).0
    case StoreOp(slot, off, v) => StoreKeeps(s, slot, off, v); Store(s, slot, off, v)
    case LoadOp(slot) => s
    case EvictOp(slot) => MappedCounted(s, slot); Evict(s, slot)
    case ForkOp(parent, child, vpns, fids) =>
      ForkKeeps(s, parent, child, vpns, fids); Fork(s, parent, child, vpns, fids).s
  }

  /** What a load returns: the bytes of the frame the entry maps. */
  function Loaded(s: State, slot: Slot): Bytes
    requires PteAt(s, slot).Valid? && PteAt(s, slot).pfn in s.pages
  {
    s.pages[PteAt(s, slot).pfn].bytes
  }

  /** The simple machine: each process has its own memory, and fork copies it. */
  type Eager = map<Slot, Bytes>

  function EagerAt(e: Eager, x: Slot): Bytes {
    if x in e then e[x] else ZeroPage()
  }

  function EagerFork(e: Eager, parent: Pid, child: Pid): Eager {
    (map x | x in e && x.pid != child :: e[x])
    + (map v | v in (set x | x in e && x.pid == parent :: x.vpn) :: Slot(child, v) := e[Slot(parent, v)])
  }

  function EagerStep(e: Eager, op: Op): Eager {
    match op
    case StoreOp(slot, off, v) => if off < PGSIZE then e[slot := EagerAt(e, slot)[off := v]] else e
    case ForkOp(parent, child, _, _) => EagerFork(e, parent, child)
    case _ => e
  }

  ghost predicate Sim(s: State, e: Eager) {
    forall x :: Mem(s, x) == EagerAt(e, x)
  }

  lemma {:induction false} EagerForkAt(e: Eager, parent: Pid, child: Pid)
    requires parent != child
    ensures forall v :: EagerAt(EagerFork(e, parent, child), Slot(child, v)) == EagerAt(e, Slot(parent, v))
    ensures forall x: Slot :: x.pid != child ==> EagerAt(EagerFork(e, parent, child), x) == EagerAt(e, x)
  {
  }

  lemma {:induction false} ForkSim(s: State, s': State, e: Eager, parent: Pid, child: Pid)
    requires Sim(s, e) && parent != child
    requires forall v :: Mem(s', Slot(child, v)) == Mem(s, Slot(parent, v))
    requires forall x: Slot :: x.pid != child ==> Mem(s', x) == Mem(s, x)
    ensures Sim(s', EagerFork(e, parent, child))
  {
    hide Mem, EagerAt, EagerFork;
    EagerForkAt(e, parent, child);
    forall x ensures Mem(s', x) == EagerAt(EagerFork(e, parent, child), x) {
      if x.pid == child {
        assert x == Slot(child, x.vpn);
      }
    }
  }

  lemma {:induction false} StoreSim(s: State, s': State, e: Eager, slot: Slot, off: nat, v: nat)
    requires Sim(s, e) && off < PGSIZE && Mem(s', slot) == Mem(s, slot)[off := v]
    requires forall x :: x != slot ==> Mem(s', x) == Mem(s, x)
    ensures Sim(s', e[slot := EagerAt(e, slot)[off := v]])
  {
    hide Mem;
  }

  lemma {:induction false} QuietSim(s: State, s': State, e: Eager)
    requires Sim(s, e) && (forall x :: Mem(s', x) == Mem(s, x))
    ensures Sim(s', e)
  {
    hide Mem;
  }

  /** Every operation keeps the invariant and the simulation. */
  lemma {:induction false} StepRefines(s: State, e: Eager, op: Op)
    requires Inv(s) && Enabled(s, op) && Sim(s, e)
    ensures Inv(Step(s, op)) && Sim(Step(s, op), EagerStep(e, op))
  {
    hide Inv, Sim, Mem, Fault, Store, Evict, Fork, EagerFork, MayFork;
    match op
    case FaultOp(slot, write, frame) =>
      FaultQuiet(s, slot, write, frame);
      QuietSim(s, Step(s, op), e);
    case StoreOp(slot, off, v) =>
      StoreKeeps(s, slot, off, v);
      StoreSim(s, Step(s, op), e, slot, off, v);
    case LoadOp(slot) =>
    case EvictOp(slot) =>
      MappedCounted(s, slot);
      EvictQuiet(s, slot);
      QuietSim(s, Step(s, op), e);
    case ForkOp(parent, child, vpns, fids) =>
      ForkKeeps(s, parent, child, vpns, fids);
      ForkApart(s, parent, child, vpns, fids);
      ForkSim(s, Step(s, op), e, parent, child);
  }

  lemma {:induction false} ForkApart(s: State, parent: Pid, child: Pid, vpns: seq<Vpn>, fids: seq<Fid>)
    requires MayFork(s, parent, child, vpns, fids)
    ensures parent != child
  {
  }

  /** `ops` can run from `s`, each enabled where it happens. */
  ghost predicate Runs(s: State, ops: seq<Op>)
    requires Inv(s)
    decreases |ops|
  {
    ops == [] || (Enabled(s, ops[0]) && (StepKeepsInv(s, ops[0]); Runs(Step(s, ops[0]), ops[1..])))
  }

  lemma {:induction false} StepKeepsInv(s: State, op: Op)
    requires Inv(s) && Enabled(s, op)
    ensures Inv(Step(s, op))
  {
    hide Inv, Mem, Fault, Store, Evict, Fork, MayFork;
    match op
    case FaultOp(slot, write, frame) => FaultQuiet(s, slot, write, frame);
    case StoreOp(slot, off, v) => StoreKeeps(s, slot, off, v);
    case LoadOp(slot) =>
    case EvictOp(slot) => MappedCounted(s, slot); EvictQuiet(s, slot);
    case ForkOp(parent, child, vpns, fids) => ForkKeeps(s, parent, child, vpns, fids);
  }

  /** Everything the loads of a run return. */
  ghost function Loads(s: State, ops: seq<Op>): seq<Bytes>
    requires Inv(s) && Runs(s, ops)
    decreases |ops|
  {
    if ops == [] then []
    else
      StepKeepsInv(s, ops[0]);
      (if ops[0].LoadOp? then MappedCounted(s, ops[0].slot); [Loaded(s, ops[0].slot)] else [])
      + Loads(Step(s, ops[0]), ops[1..])
  }

  ghost function Final(s: State, ops: seq<Op>): State
    requires Inv(s) && Runs(s, ops)
    decreases |ops|
  {
    if ops == [] then s else StepKeepsInv(s, ops[0]); Final(Step(s, ops[0]), ops[1..])
  }

  function EagerLoads(e: Eager, ops: seq<Op>): seq<Bytes>
    decreases |ops|
  {
    if ops == [] then []
    else (if ops[0].LoadOp? then [EagerAt(e, ops[0].slot)] else []) + EagerLoads(EagerStep(e, ops[0]), ops[1..])
  }

  /** Over every run the loads return what the eagerly copying machine returns, and
      the final state satisfies the invariant. */
  lemma {:induction false} RunRefines(s: State, e: Eager, ops: seq<Op>)
    requires Inv(s) && Runs(s, ops) && Sim(s, e)
    ensures Loads(s, ops) == EagerLoads(e, ops) && Inv(Final(s, ops))
    decreases |ops|
  {
    if ops != [] {
      var op := ops[0];
      LoadSim(s, e, op);
      hide Inv, Sim, Mem, Step, EagerStep, Enabled, EagerAt;
      StepRefines(s, e, op);
      RunRefines(Step(s, op), EagerStep(e, op), ops[1..]);
    }
  }

  lemma {:induction false} LoadSim(s: State, e: Eager, op: Op)
    requires Inv(s) && Enabled(s, op) && Sim(s, e)
    ensures op.LoadOp? ==> PteAt(s, op.slot).Valid? && PteAt(s, op.slot).pfn in s.pages
                           && Loaded(s, op.slot) == EagerAt(e, op.slot)
  {
    if op.LoadOp? {
      MappedCounted(s, op.slot);
    }
  }

  /** Before anything is touched: processes with mappings but no frames. */
  ghost predicate Init(s: State) {
    && s.pages == map[] && s.forks == map[] && s.ptes == map[] && s.nanonprivate == 0 && s.nanonfork == 0
    && (forall p :: p in s.procs ==> s.procs[p].nAnon == 0)
  }

  lemma {:induction false} InitGood(s: State)
    requires Init(s)
    ensures Inv(s) && Sim(s, map[])
  {
    assert forall p :: PrivateSlots(s, p) == {};
    assert forall u :: PagesOf(s, u) == {};
  }

  /** Started before anything is touched, copy-on-write and eager copying cannot be
      told apart, and every fork page's count stays the number of entries referring
      to it. */
  lemma {:induction false} ForkRefinesCopying(s: State, ops: seq<Op>)
    requires Init(s) && Inv(s) && Runs(s, ops)
    ensures Loads(s, ops) == EagerLoads(map[], ops)
    ensures CountsOk(Final(s, ops)) && AnonOk(Final(s, ops), 0, 0) && StatsOk(Final(s, ops))
  {
    InitGood(s);
    RunRefines(s, map[], ops);
  }
}
