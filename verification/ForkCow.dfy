/**
  Copy-on-write fork as the kernel does it: page-table entries, fork pages with
  reference counts, and page frames, changed by page faults, stores, working-set
  evictions and forks. Frames are never stolen and nothing is unmapped, so the
  swap and busy kinds of entry do not occur.
 */
module ForkCow {
  import opened Counting
  import opened Queues
  import opened Options

  const PGSIZE := 4096

  type Pfn = nat
  type Fid = nat
  type Pid = nat
  type Vpn = nat
  type Bytes = b: seq<nat> | |b| == PGSIZE witness seq(PGSIZE, _ => 0)

  function ZeroPage(): Bytes {
    seq(PGSIZE, _ => 0)
  }

  /** A page-table slot: one virtual page of one process. */
  datatype Slot = Slot(pid: Pid, vpn: Vpn)

  datatype Pte = Zero | Valid(pfn: Pfn, writeable: bool) | Trans(pfn: Pfn) | ForkPtr(fid: Fid)

  datatype Use = AnonPrivate | AnonFork

  datatype Owner = OfProcess(pid: Pid) | OfFork(fid: Fid)

  /** The entry a frame's record points back to. */
  datatype Referent = SlotPte(slot: Slot) | ForkPte(fid: Fid)

  datatype Page = Page(use: Use, owner: Owner, referent: Referent, refcnt: nat, dirty: bool, bytes: Bytes)

  /** `vmp_forkpage`: the shared frame and how many slots refer to it. */
  datatype ForkPage = ForkPage(pfn: Pfn, refcount: nat)

  /** A process: its anonymous mappings (and whether each may be written) and its
      count of private anonymous pages. */
  datatype Proc = Proc(vads: map<Vpn, bool>, nAnon: nat)

  datatype State = State(
    pages: map<Pfn, Page>,
    forks: map<Fid, ForkPage>,
    ptes: map<Slot, Pte>,
    procs: map<Pid, Proc>,
    nanonprivate: int,
    nanonfork: int)

  datatype FaultResult = Ok | Failure | PageShortage | Fatal

  function PteAt(s: State, slot: Slot): Pte {
    if slot in s.ptes then s.ptes[slot] else Zero
  }

  // ------------------------------------------------------------ page faults

  function AddAnon(s: State, pid: Pid, n: int): map<Pid, Proc>
    requires pid in s.procs && 0 <= s.procs[pid].nAnon + n
  {
    s.procs[pid := s.procs[pid].(nAnon := s.procs[pid].nAnon + n)]
  }

  /** A zero entry: a fresh zeroed private frame. */
  function ZeroFill(s: State, slot: Slot, write: bool, pfn: Pfn): State
    requires slot.pid in s.procs
  {
    s.(pages := s.pages[pfn := Page(AnonPrivate, OfProcess(slot.pid), SlotPte(slot), 1, false, ZeroPage())],
       ptes := s.ptes[slot := Valid(pfn, write)],
       procs := AddAnon(s, slot.pid, 1),
       nanonprivate := s.nanonprivate + 1)
  }

  /** A private entry in transition is made valid again. */
  function TransFault(s: State, slot: Slot, pfn: Pfn, write: bool): State
    requires pfn in s.pages
  {
    s.(pages := s.pages[pfn := s.pages[pfn].(refcnt := s.pages[pfn].refcnt + 1)],
       ptes := s.ptes[slot := Valid(pfn, write)])
  }

  /** A fork entry is mapped read-only, whatever the access was. */
  function ForkFault(s: State, slot: Slot, fid: Fid): State
    requires fid in s.forks && s.forks[fid].pfn in s.pages
  {
    var pfn := s.forks[fid].pfn;
    s.(pages := s.pages[pfn := s.pages[pfn].(refcnt := s.pages[pfn].refcnt + 1)],
       ptes := s.ptes[slot := Valid(pfn, false)])
  }

  /** Write to a forked frame that nobody else refers to: take it over. */
  function TakeOver(s: State, slot: Slot, pfn: Pfn, fid: Fid): State
    requires slot.pid in s.procs && pfn in s.pages
  {
    s.(pages := s.pages[pfn := s.pages[pfn].(use := AnonPrivate, owner := OfProcess(slot.pid),
                                             referent := SlotPte(slot))],
       ptes := s.ptes[slot := Valid(pfn, true)],
       forks := s.forks - {fid},
       procs := AddAnon(s, slot.pid, 1),
       nanonprivate := s.nanonprivate + 1,
       nanonfork := s.nanonfork - 1)
  }

  /** Write to a forked frame that others refer to: copy it. */
  function CopyFork(s: State, slot: Slot, pfn: Pfn, fid: Fid, frame: Pfn): State
    requires slot.pid in s.procs && pfn in s.pages && fid in s.forks && 0 < s.forks[fid].refcount
  {
    s.(pages := s.pages[frame := Page(AnonPrivate, OfProcess(slot.pid), SlotPte(slot), 1, false, s.pages[pfn].bytes)],
       ptes := s.ptes[slot := Valid(frame, true)],
       forks := s.forks[fid := s.forks[fid].(refcount := s.forks[fid].refcount - 1)],
       procs := AddAnon(s, slot.pid, 1),
       nanonprivate := s.nanonprivate + 1)
  }

  /** First write to a private frame mapped read-only. */
  function DirtyFault(s: State, slot: Slot, pfn: Pfn): State {
    s.(ptes := s.ptes[slot := Valid(pfn, true)])
  }

  /** `vmp_do_fault` on anonymous memory. `frame` is what the page allocator gives,
      if it gives anything. */
  function Fault(s: State, slot: Slot, write: bool, frame: Option<Pfn>): (r: (State, FaultResult))
    requires Inv(s)
  {
    if slot.pid !in s.procs || slot.vpn !in s.procs[slot.pid].vads then (s, Failure)
    else if write && !s.procs[slot.pid].vads[slot.vpn] then (s, Fatal)
    else
      match PteAt(s, slot)
      case Zero => if frame.None? then (s, PageShortage) else (ZeroFill(s, slot, write, frame.value), Ok)
      case Trans(pfn) => (TransFault(s, slot, pfn, write), Ok)
      case ForkPtr(fid) => (ForkFault(s, slot, fid), Ok)
      case Valid(pfn, w) =>
        if !write || w then (s, Ok)
        else if s.pages[pfn].use.AnonPrivate? then (DirtyFault(s, slot, pfn), Ok)
        else
          var fid := s.pages[pfn].owner.fid;
          if s.forks[fid].refcount == 1 then (TakeOver(s, slot, pfn, fid), Ok)
          else if frame.None? then (s, PageShortage)
          else (CopyFork(s, slot, pfn, fid, frame.value), Ok)
  }

  // -------------------------------------------------- eviction and stores

  /** `vmp_page_evict`: a private entry goes into transition, a fork entry goes
      back to a pointer; the frame loses this entry's reference. */
  function Evict(s: State, slot: Slot): State
    requires PteAt(s, slot).Valid? && PteAt(s, slot).pfn in s.pages && 0 < s.pages[PteAt(s, slot).pfn].refcnt
    requires s.pages[PteAt(s, slot).pfn].use.AnonFork? ==> s.pages[PteAt(s, slot).pfn].owner.OfFork?
  {
    var Valid(pfn, w) := PteAt(s, slot);
    var page := s.pages[pfn];
    s.(pages := s.pages[pfn := page.(dirty := page.dirty || w, refcnt := page.refcnt - 1)],
       ptes := s.ptes[slot := if page.use.AnonPrivate? then Trans(pfn) else ForkPtr(page.owner.fid)])
  }

  /** A store by the program, through a writeable entry. */
  function Store(s: State, slot: Slot, off: nat, v: nat): State
    requires PteAt(s, slot).Valid? && PteAt(s, slot).pfn in s.pages && off < PGSIZE
  {
    var pfn := PteAt(s, slot).pfn;
    s.(pages := s.pages[pfn := s.pages[pfn].(bytes := s.pages[pfn].bytes[off := v])])
  }

  // ------------------------------------------------------------------- fork

  function AsFork(page: Page, fid: Fid): Page {
    page.(use := AnonFork, owner := OfFork(fid), referent := ForkPte(fid))
  }

  /** `convert_private_to_fork`: the frame becomes fork page `fid`, counted for the
      parent and for the child that is about to get it. */
  function ConvertPrivate(s: State, slot: Slot, pfn: Pfn, fid: Fid): State
    requires pfn in s.pages
  {
    s.(pages := s.pages[pfn := AsFork(s.pages[pfn], fid)],
       forks := s.forks[fid := ForkPage(pfn, 2)],
       ptes := s.ptes[slot := if PteAt(s, slot).Valid? then Valid(pfn, false) else ForkPtr(fid)],
       nanonprivate := s.nanonprivate - 1,
       nanonfork := s.nanonfork + 1)
  }

  /** `forkpage_retain`. */
  function RetainFork(s: State, fid: Fid): State
    requires fid in s.forks
  {
    s.(forks := s.forks[fid := s.forks[fid].(refcount := s.forks[fid].refcount + 1)])
  }

  function GiveChild(s: State, slot: Slot, fid: Fid): State {
    s.(ptes := s.ptes[slot := ForkPtr(fid)])
  }

  /** The fork either runs to the end or trips an assertion about the supply of
      preallocated fork pages. */
  datatype ForkOut = Forked(s: State, fids: seq<Fid>) | AssertFailed

  /** One iteration of `cow_pages`. */
  function CowPage(s: State, parent: Pid, child: Pid, vpn: Vpn, fids: seq<Fid>): ForkOut {
    var slot := Slot(parent, vpn);
    var pte := PteAt(s, slot);
    if PrivateOf(s, pte).Some? && PrivateOf(s, pte).value in s.pages then
      if fids == [] then AssertFailed
      else Forked(GiveChild(ConvertPrivate(s, slot, PrivateOf(s, pte).value, fids[0]), Slot(child, vpn), fids[0]),
                  fids[1..])
    else if FidOf(s, pte).Some? && FidOf(s, pte).value in s.forks then
      Forked(GiveChild(RetainFork(s, FidOf(s, pte).value), Slot(child, vpn), FidOf(s, pte).value), fids)
    else Forked(s, fids)
  }

  function CowPages(s: State, parent: Pid, child: Pid, vpns: seq<Vpn>, fids: seq<Fid>): ForkOut
    decreases |vpns|
  {
    if vpns == [] then Forked(s, fids)
    else
      var r := CowPage(s, parent, child, vpns[0], fids);
      if r.AssertFailed? then r else CowPages(r.s, parent, child, vpns[1..], r.fids)
  }

  function NewChild(s: State, parent: Pid, child: Pid): State
    requires parent in s.procs
  {
    s.(procs := s.procs[child := Proc(s.procs[parent].vads, 0)])
  }

  /** `vm_fork`, with the parent's mapped pages in `vpns` and one preallocated fork
      page in `fids` for each of its private pages. */
  function Fork(s: State, parent: Pid, child: Pid, vpns: seq<Vpn>, fids: seq<Fid>): ForkOut
    requires parent in s.procs
  {
    var r := CowPages(NewChild(s, parent, child), parent, child, vpns, fids);
    if r.AssertFailed? || r.fids != [] || parent !in r.s.procs then AssertFailed
    else Forked(r.s.(procs := r.s.procs[parent := r.s.procs[parent].(nAnon := 0)]), [])
  }

  // ------------------------------------------------------ what a process reads

  /** The bytes process `slot.pid` sees at its virtual page `slot.vpn`. */
  ghost function Mem(s: State, slot: Slot): Bytes {
    match PteAt(s, slot)
    case Zero => ZeroPage()
    case Valid(pfn, _) => if pfn in s.pages then s.pages[pfn].bytes else ZeroPage()
    case Trans(pfn) => if pfn in s.pages then s.pages[pfn].bytes else ZeroPage()
    case ForkPtr(fid) =>
      if fid in s.forks && s.forks[fid].pfn in s.pages then s.pages[s.forks[fid].pfn].bytes else ZeroPage()
  }

  // -------------------------------------------------------------- the invariant

  /** The fork page an entry refers to. */
  function FidOf(s: State, pte: Pte): Option<Fid> {
    match pte
    case ForkPtr(fid) => Some(fid)
    case Valid(pfn, _) =>
      if pfn in s.pages && s.pages[pfn].use.AnonFork? && s.pages[pfn].owner.OfFork?
      then Some(s.pages[pfn].owner.fid) else None
    case _ => None
  }

  /** The private frame of an entry. */
  function PrivateOf(s: State, pte: Pte): Option<Pfn> {
    match pte
    case Trans(pfn) => Some(pfn)
    case Valid(pfn, _) => if pfn in s.pages && s.pages[pfn].use.AnonPrivate? then Some(pfn) else None
    case _ => None
  }

  ghost function Refs(s: State, fid: Fid): set<Slot> {
    set slot | slot in s.ptes && FidOf(s, s.ptes[slot]) == Some(fid)
  }

  ghost function PrivateSlots(s: State, pid: Pid): set<Slot> {
    set slot | slot in s.ptes && slot.pid == pid && PrivateOf(s, s.ptes[slot]).Some?
  }

  ghost predicate PteOk(s: State, slot: Slot, pte: Pte) {
    match pte
    case Zero => false
    case Valid(pfn, w) =>
      && pfn in s.pages
      && var page := s.pages[pfn];
         if page.use.AnonPrivate? then page.owner == OfProcess(slot.pid) && page.referent == SlotPte(slot)
         else !w && page.owner.OfFork? && page.owner.fid in s.forks && s.forks[page.owner.fid].pfn == pfn
    case Trans(pfn) =>
      pfn in s.pages && s.pages[pfn].use.AnonPrivate? && s.pages[pfn].owner == OfProcess(slot.pid)
      && s.pages[pfn].referent == SlotPte(slot)
    case ForkPtr(fid) => fid in s.forks
  }

  ghost predicate ForkOk(s: State, fid: Fid, fork: ForkPage) {
    && fork.pfn in s.pages && s.pages[fork.pfn].use.AnonFork?
    && s.pages[fork.pfn].owner == OfFork(fid) && s.pages[fork.pfn].referent == ForkPte(fid)
  }

  ghost predicate SlotsOk(s: State) {
    forall slot :: slot in s.ptes ==>
      slot.pid in s.procs && slot.vpn in s.procs[slot.pid].vads && PteOk(s, slot, s.ptes[slot])
  }

  ghost predicate ForksOk(s: State) {
    forall fid :: fid in s.forks ==> ForkOk(s, fid, s.forks[fid])
  }

  /** Each fork page's count is the number of entries that refer to it, and it
      exists only while there is one. */
  ghost predicate CountsOk(s: State) {
    forall fid :: fid in s.forks ==> s.forks[fid].refcount == |Refs(s, fid)| && 0 < s.forks[fid].refcount
  }

  /** A process's count is its number of private entries. While `vm_fork` runs, the
      parent's count is `extra` ahead: it is cleared only at the end. */
  ghost predicate AnonOk(s: State, parent: Pid, extra: nat) {
    forall pid :: pid in s.procs ==>
      s.procs[pid].nAnon == |PrivateSlots(s, pid)| + if pid == parent then extra else 0
  }

  ghost function Mappers(s: State, pfn: Pfn): set<Slot> {
    set slot | slot in s.ptes && s.ptes[slot].Valid? && s.ptes[slot].pfn == pfn
  }

  /** No frame is freed under a valid entry. */
  ghost predicate RefcntsOk(s: State) {
    forall pfn :: pfn in s.pages ==> |Mappers(s, pfn)| <= s.pages[pfn].refcnt
  }

  /** Every frame is reached through the entry its record points back to. */
  ghost predicate PagesOk(s: State) {
    forall pfn :: pfn in s.pages ==>
      match s.pages[pfn].use
      case AnonPrivate => s.pages[pfn].referent.SlotPte? && s.pages[pfn].referent.slot in s.ptes
                          && PrivateOf(s, s.ptes[s.pages[pfn].referent.slot]) == Some(pfn)
      case AnonFork => s.pages[pfn].owner.OfFork? && s.pages[pfn].owner.fid in s.forks
                       && s.forks[s.pages[pfn].owner.fid].pfn == pfn
  }

  ghost function PagesOf(s: State, use: Use): set<Pfn> {
    set pfn | pfn in s.pages && s.pages[pfn].use == use
  }

  ghost predicate StatsOk(s: State) {
    s.nanonprivate == |PagesOf(s, AnonPrivate)| && s.nanonfork == |PagesOf(s, AnonFork)|
  }

  ghost predicate Core(s: State) {
    SlotsOk(s) && ForksOk(s) && PagesOk(s)
  }

  ghost predicate Counted(s: State) {
    CountsOk(s) && RefcntsOk(s) && StatsOk(s)
  }

  ghost predicate Inv(s: State) {
    Core(s) && Counted(s) && AnonOk(s, 0, 0)
  }

  // ------------------------------------------- counting when one entry changes

  /** Nothing but entry `k` changed, as far as fork and private references go. */
  ghost predicate OnlySlot(s: State, s': State, k: Slot) {
    forall slot :: slot != k ==>
      && (slot in s.ptes <==> slot in s'.ptes)
      && (slot in s.ptes ==>
            && s'.ptes[slot] == s.ptes[slot]
            && FidOf(s', s.ptes[slot]) == FidOf(s, s.ptes[slot])
            && PrivateOf(s', s.ptes[slot]) == PrivateOf(s, s.ptes[slot]))
  }

  lemma {:induction false} RefsOne(s: State, s': State, k: Slot, fid: Fid)
    requires OnlySlot(s, s', k)
    ensures |Refs(s', fid)| == |Refs(s, fid)| - B(k in Refs(s, fid)) + B(k in Refs(s', fid))
  {
    assert Refs(s, fid) - {k} == Refs(s', fid) - {k};
    CardOne(Refs(s, fid), Refs(s', fid), k);
  }

  lemma {:induction false} PrivatesOne(s: State, s': State, k: Slot, pid: Pid)
    requires OnlySlot(s, s', k)
    ensures |PrivateSlots(s', pid)| ==
            |PrivateSlots(s, pid)| - B(k in PrivateSlots(s, pid)) + B(k in PrivateSlots(s', pid))
  {
    assert PrivateSlots(s, pid) - {k} == PrivateSlots(s', pid) - {k};
    CardOne(PrivateSlots(s, pid), PrivateSlots(s', pid), k);
  }

  lemma {:induction false} MappersOne(s: State, s': State, k: Slot, pfn: Pfn)
    requires OnlySlot(s, s', k)
    ensures |Mappers(s', pfn)| == |Mappers(s, pfn)| - B(k in Mappers(s, pfn)) + B(k in Mappers(s', pfn))
  {
    assert Mappers(s, pfn) - {k} == Mappers(s', pfn) - {k};
    CardOne(Mappers(s, pfn), Mappers(s', pfn), k);
  }

  lemma {:induction false} PagesOne(s: State, s': State, pfn: Pfn, use: Use)
    requires s.pages - {pfn} == s'.pages - {pfn}
    ensures |PagesOf(s', use)| == |PagesOf(s, use)| - B(pfn in PagesOf(s, use)) + B(pfn in PagesOf(s', use))
  {
    assert forall x :: x != pfn && x in s.pages ==> x in s.pages - {pfn} && (s.pages - {pfn})[x] == s.pages[x];
    assert forall x :: x != pfn && x in s'.pages ==> x in s'.pages - {pfn} && (s'.pages - {pfn})[x] == s'.pages[x];
    assert PagesOf(s, use) - {pfn} == PagesOf(s', use) - {pfn};
    CardOne(PagesOf(s, use), PagesOf(s', use), pfn);
  }

  // ----------------------------------------------- each step keeps the invariant

  lemma {:induction false} NoRefs(s: State, fid: Fid)
    requires SlotsOk(s) && fid !in s.forks
    ensures Refs(s, fid) == {}
  {
  }

  /** A fork page counted once has exactly one entry. */
  lemma {:induction false} OnlyRef(s: State, slot: Slot, fid: Fid)
    requires CountsOk(s) && fid in s.forks && s.forks[fid].refcount == 1 && slot in Refs(s, fid)
    ensures Refs(s, fid) == {slot}
  {
    assert |Refs(s, fid) - {slot}| == 0;
  }

  function FidAt(s: State, slot: Slot): Option<Fid> {
    FidOf(s, PteAt(s, slot))
  }

  function PrivateAt(s: State, slot: Slot): Option<Pfn> {
    PrivateOf(s, PteAt(s, slot))
  }

  predicate Maps(s: State, slot: Slot, pfn: Pfn) {
    PteAt(s, slot).Valid? && PteAt(s, slot).pfn == pfn
  }

  /** Reference counts move by what entry `k` stops and starts referring to, and so
      do the counts of private pages (where `k`'s process gets `ahead` of that). */
  ghost predicate CountsFollow(s: State, s': State, k: Slot, ahead: nat) {
    && (forall fid :: fid in s'.forks ==>
          && s'.forks[fid].refcount ==
             (if fid in s.forks then s.forks[fid].refcount else 0) - B(FidAt(s, k) == Some(fid))
             + B(FidAt(s', k) == Some(fid))
          && 0 < s'.forks[fid].refcount)
    && (forall pid :: pid in s'.procs ==>
          && pid in s.procs
          && s'.procs[pid].nAnon ==
             s.procs[pid].nAnon
             + if pid == k.pid then B(PrivateAt(s', k).Some?) - B(PrivateAt(s, k).Some?) + ahead else 0)
  }

  /** Frame references keep up with entry `k`, and the statistics with frame `page`. */
  ghost predicate FramesFollow(s: State, s': State, k: Slot, page: Pfn) {
    && (forall pfn :: pfn in s'.pages ==>
          s'.pages[pfn].refcnt >=
            (if pfn in s.pages then s.pages[pfn].refcnt else 0) - B(Maps(s, k, pfn)) + B(Maps(s', k, pfn)))
    && s.pages - {page} == s'.pages - {page}
    && s'.nanonprivate == s.nanonprivate - B(page in s.pages && s.pages[page].use.AnonPrivate?)
                                        + B(page in s'.pages && s'.pages[page].use.AnonPrivate?)
    && s'.nanonfork == s.nanonfork - B(page in s.pages && s.pages[page].use.AnonFork?)
                                   + B(page in s'.pages && s'.pages[page].use.AnonFork?)
  }

  lemma {:induction false} NoMappers(s: State, pfn: Pfn)
    requires SlotsOk(s) && pfn !in s.pages
    ensures Mappers(s, pfn) == {}
  {
  }

  ghost predicate Positive(s: State) {
    forall f :: f in s.forks ==> 0 < s.forks[f].refcount
  }

  lemma {:induction false} PositiveOf(s: State)
    requires Counted(s)
    ensures Positive(s)
  {
  }

  lemma {:induction false} CountsFollowKeeps(s: State, s': State, k: Slot, ahead: nat, parent: Pid, extra: nat)
    requires SlotsOk(s) && OnlySlot(s, s', k) && CountsFollow(s, s', k, ahead) && (ahead == 0 || k.pid == parent)
    requires CountsOk(s) && AnonOk(s, parent, extra)
    ensures CountsOk(s') && AnonOk(s', parent, extra + ahead)
  {
    forall f | f in s'.forks ensures s'.forks[f].refcount == |Refs(s', f)| && 0 < s'.forks[f].refcount {
      RefsOne(s, s', k, f);
      if f !in s.forks {
        NoRefs(s, f);
      }
    }
    forall p | p in s'.procs
      ensures s'.procs[p].nAnon == |PrivateSlots(s', p)| + if p == parent then extra + ahead else 0
    {
      PrivatesOne(s, s', k, p);
    }
  }

  lemma {:induction false} FramesFollowKeeps(s: State, s': State, k: Slot, page: Pfn)
    requires SlotsOk(s) && OnlySlot(s, s', k) && FramesFollow(s, s', k, page)
    requires RefcntsOk(s) && StatsOk(s)
    ensures RefcntsOk(s') && StatsOk(s')
  {
    forall p | p in s'.pages ensures |Mappers(s', p)| <= s'.pages[p].refcnt {
      MappersOne(s, s', k, p);
      if p !in s.pages {
        NoMappers(s, p);
      }
    }
    PagesOne(s, s', page, AnonPrivate);
    PagesOne(s, s', page, AnonFork);
  }

  /** A step that changes one entry, and whose counts follow it, keeps all counts right. */
  lemma {:induction false} FollowsKeeps(s: State, s': State, k: Slot, page: Pfn, ahead: nat, parent: Pid, extra: nat)
    requires SlotsOk(s) && OnlySlot(s, s', k) && (ahead == 0 || k.pid == parent)
    requires CountsFollow(s, s', k, ahead) && FramesFollow(s, s', k, page)
    requires Counted(s) && AnonOk(s, parent, extra)
    ensures Counted(s') && AnonOk(s', parent, extra + ahead)
  {
    hide SlotsOk, OnlySlot, CountsFollow, FramesFollow, CountsOk, RefcntsOk, StatsOk, AnonOk;
    CountsFollowKeeps(s, s', k, ahead, parent, extra);
    FramesFollowKeeps(s, s', k, page);
  }

  /** Entry `slot` maps, read-only, the frame of fork page `fid`. */
  ghost predicate MapsShared(s: State, slot: Slot, pfn: Pfn, fid: Fid) {
    && PteAt(s, slot) == Valid(pfn, false) && pfn in s.pages && s.pages[pfn].use.AnonFork?
    && s.pages[pfn].owner == OfFork(fid) && fid in s.forks && slot.pid in s.procs
  }

  lemma {:induction false} ZeroFillSlots(s: State, slot: Slot, write: bool, pfn: Pfn)
    requires Core(s)
    requires slot !in s.ptes && pfn !in s.pages
    requires slot.pid in s.procs && slot.vpn in s.procs[slot.pid].vads
    ensures SlotsOk(ZeroFill(s, slot, write, pfn))
  {
  }

  lemma {:induction false} ZeroFillRecords(s: State, slot: Slot, write: bool, pfn: Pfn)
    requires Core(s)
    requires slot !in s.ptes && pfn !in s.pages
    requires slot.pid in s.procs && slot.vpn in s.procs[slot.pid].vads
    ensures ForksOk(ZeroFill(s, slot, write, pfn)) && PagesOk(ZeroFill(s, slot, write, pfn))
  {
  }

  lemma {:induction false} ZeroFillView(s: State, slot: Slot, write: bool, pfn: Pfn)
    requires Core(s)
    requires slot !in s.ptes && pfn !in s.pages
    requires slot.pid in s.procs && slot.vpn in s.procs[slot.pid].vads
    ensures OnlySlot(s, ZeroFill(s, slot, write, pfn), slot)
    ensures forall x :: Mem(ZeroFill(s, slot, write, pfn), x) == Mem(s, x)
  {
  }

  lemma {:induction false} ZeroFillCounts(s: State, slot: Slot, write: bool, pfn: Pfn)
    requires Core(s)
    requires slot !in s.ptes && pfn !in s.pages
    requires slot.pid in s.procs && slot.vpn in s.procs[slot.pid].vads
    requires Positive(s)
    ensures CountsFollow(s, ZeroFill(s, slot, write, pfn), slot, 0)
  {
  }

  lemma {:induction false} ZeroFillFrames(s: State, slot: Slot, write: bool, pfn: Pfn)
    requires Core(s)
    requires slot !in s.ptes && pfn !in s.pages
    requires slot.pid in s.procs && slot.vpn in s.procs[slot.pid].vads
    ensures FramesFollow(s, ZeroFill(s, slot, write, pfn), slot, pfn)
  {
  }

  lemma {:induction false} TransFaultSlots(s: State, slot: Slot, pfn: Pfn, write: bool)
    requires Core(s)
    requires PteAt(s, slot) == Trans(pfn) && pfn in s.pages
    ensures SlotsOk(TransFault(s, slot, pfn, write))
  {
  }

  lemma {:induction false} TransFaultRecords(s: State, slot: Slot, pfn: Pfn, write: bool)
    requires Core(s)
    requires PteAt(s, slot) == Trans(pfn) && pfn in s.pages
    ensures ForksOk(TransFault(s, slot, pfn, write)) && PagesOk(TransFault(s, slot, pfn, write))
  {
  }

  lemma {:induction false} TransFaultView(s: State, slot: Slot, pfn: Pfn, write: bool)
    requires Core(s)
    requires PteAt(s, slot) == Trans(pfn) && pfn in s.pages
    ensures OnlySlot(s, TransFault(s, slot, pfn, write), slot)
    ensures forall x :: Mem(TransFault(s, slot, pfn, write), x) == Mem(s, x)
  {
  }

  lemma {:induction false} TransFaultCounts(s: State, slot: Slot, pfn: Pfn, write: bool)
    requires Core(s)
    requires PteAt(s, slot) == Trans(pfn) && pfn in s.pages
    requires Positive(s)
    ensures CountsFollow(s, TransFault(s, slot, pfn, write), slot, 0)
  {
  }

  lemma {:induction false} TransFaultFrames(s: State, slot: Slot, pfn: Pfn, write: bool)
    requires Core(s)
    requires PteAt(s, slot) == Trans(pfn) && pfn in s.pages
    ensures FramesFollow(s, TransFault(s, slot, pfn, write), slot, pfn)
  {
  }

  lemma {:induction false} ForkFaultSlots(s: State, slot: Slot, fid: Fid)
    requires Core(s)
    requires PteAt(s, slot) == ForkPtr(fid) && fid in s.forks && s.forks[fid].pfn in s.pages
    ensures SlotsOk(ForkFault(s, slot, fid))
  {
  }

  lemma {:induction false} ForkFaultRecords(s: State, slot: Slot, fid: Fid)
    requires Core(s)
    requires PteAt(s, slot) == ForkPtr(fid) && fid in s.forks && s.forks[fid].pfn in s.pages
    ensures ForksOk(ForkFault(s, slot, fid)) && PagesOk(ForkFault(s, slot, fid))
  {
  }

  lemma {:induction false} ForkFaultView(s: State, slot: Slot, fid: Fid)
    requires Core(s)
    requires PteAt(s, slot) == ForkPtr(fid) && fid in s.forks && s.forks[fid].pfn in s.pages
    ensures OnlySlot(s, ForkFault(s, slot, fid), slot)
    ensures forall x :: Mem(ForkFault(s, slot, fid), x) == Mem(s, x)
  {
  }

  lemma {:induction false} ForkFaultCounts(s: State, slot: Slot, fid: Fid)
    requires Core(s)
    requires PteAt(s, slot) == ForkPtr(fid) && fid in s.forks && s.forks[fid].pfn in s.pages
    requires Positive(s)
    ensures CountsFollow(s, ForkFault(s, slot, fid), slot, 0)
  {
  }

  lemma {:induction false} ForkFaultFrames(s: State, slot: Slot, fid: Fid)
    requires Core(s)
    requires PteAt(s, slot) == ForkPtr(fid) && fid in s.forks && s.forks[fid].pfn in s.pages
    ensures FramesFollow(s, ForkFault(s, slot, fid), slot, s.forks[fid].pfn)
  {
  }

  lemma {:induction false} DirtyFaultSlots(s: State, slot: Slot, pfn: Pfn)
    requires Core(s)
    requires PteAt(s, slot) == Valid(pfn, false) && pfn in s.pages && s.pages[pfn].use.AnonPrivate?
    ensures SlotsOk(DirtyFault(s, slot, pfn))
  {
  }

  lemma {:induction false} DirtyFaultRecords(s: State, slot: Slot, pfn: Pfn)
    requires Core(s)
    requires PteAt(s, slot) == Valid(pfn, false) && pfn in s.pages && s.pages[pfn].use.AnonPrivate?
    ensures ForksOk(DirtyFault(s, slot, pfn)) && PagesOk(DirtyFault(s, slot, pfn))
  {
  }

  lemma {:induction false} DirtyFaultView(s: State, slot: Slot, pfn: Pfn)
    requires Core(s)
    requires PteAt(s, slot) == Valid(pfn, false) && pfn in s.pages && s.pages[pfn].use.AnonPrivate?
    ensures OnlySlot(s, DirtyFault(s, slot, pfn), slot)
    ensures forall x :: Mem(DirtyFault(s, slot, pfn), x) == Mem(s, x)
  {
  }

  lemma {:induction false} DirtyFaultCounts(s: State, slot: Slot, pfn: Pfn)
    requires Core(s)
    requires PteAt(s, slot) == Valid(pfn, false) && pfn in s.pages && s.pages[pfn].use.AnonPrivate?
    requires Positive(s)
    ensures CountsFollow(s, DirtyFault(s, slot, pfn), slot, 0)
  {
  }

  lemma {:induction false} DirtyFaultFrames(s: State, slot: Slot, pfn: Pfn)
    requires Core(s)
    requires PteAt(s, slot) == Valid(pfn, false) && pfn in s.pages && s.pages[pfn].use.AnonPrivate?
    ensures FramesFollow(s, DirtyFault(s, slot, pfn), slot, pfn)
  {
  }

  lemma {:induction false} TakeOverSlots(s: State, slot: Slot, pfn: Pfn, fid: Fid)
    requires Core(s)
    requires MapsShared(s, slot, pfn, fid) && Refs(s, fid) == {slot}
    ensures SlotsOk(TakeOver(s, slot, pfn, fid))
  {
    assert forall x :: x in s.ptes && x != slot ==> x !in Refs(s, fid);
  }

  lemma {:induction false} TakeOverRecords(s: State, slot: Slot, pfn: Pfn, fid: Fid)
    requires Core(s)
    requires MapsShared(s, slot, pfn, fid) && Refs(s, fid) == {slot}
    ensures ForksOk(TakeOver(s, slot, pfn, fid)) && PagesOk(TakeOver(s, slot, pfn, fid))
  {
    assert forall x :: x in s.ptes && x != slot ==> x !in Refs(s, fid);
  }

  lemma {:induction false} TakeOverView(s: State, slot: Slot, pfn: Pfn, fid: Fid)
    requires Core(s)
    requires MapsShared(s, slot, pfn, fid) && Refs(s, fid) == {slot}
    ensures OnlySlot(s, TakeOver(s, slot, pfn, fid), slot)
    ensures forall x :: Mem(TakeOver(s, slot, pfn, fid), x) == Mem(s, x)
  {
    assert forall x :: x in s.ptes && x != slot ==> x !in Refs(s, fid);
  }

  lemma {:induction false} TakeOverCounts(s: State, slot: Slot, pfn: Pfn, fid: Fid)
    requires Core(s)
    requires MapsShared(s, slot, pfn, fid) && Refs(s, fid) == {slot}
    requires Positive(s)
    ensures CountsFollow(s, TakeOver(s, slot, pfn, fid), slot, 0)
  {
  }

  lemma {:induction false} TakeOverFrames(s: State, slot: Slot, pfn: Pfn, fid: Fid)
    requires Core(s)
    requires MapsShared(s, slot, pfn, fid) && Refs(s, fid) == {slot}
    ensures FramesFollow(s, TakeOver(s, slot, pfn, fid), slot, pfn)
  {
  }

  lemma {:induction false} CopyForkSlots(s: State, slot: Slot, pfn: Pfn, fid: Fid, frame: Pfn)
    requires Core(s)
    requires MapsShared(s, slot, pfn, fid) && 1 < s.forks[fid].refcount && frame !in s.pages
    ensures SlotsOk(CopyFork(s, slot, pfn, fid, frame))
  {
  }

  lemma {:induction false} CopyForkRecords(s: State, slot: Slot, pfn: Pfn, fid: Fid, frame: Pfn)
    requires Core(s)
    requires MapsShared(s, slot, pfn, fid) && 1 < s.forks[fid].refcount && frame !in s.pages
    ensures ForksOk(CopyFork(s, slot, pfn, fid, frame)) && PagesOk(CopyFork(s, slot, pfn, fid, frame))
  {
  }

  lemma {:induction false} CopyForkView(s: State, slot: Slot, pfn: Pfn, fid: Fid, frame: Pfn)
    requires Core(s)
    requires MapsShared(s, slot, pfn, fid) && 1 < s.forks[fid].refcount && frame !in s.pages
    ensures OnlySlot(s, CopyFork(s, slot, pfn, fid, frame), slot)
    ensures forall x :: Mem(CopyFork(s, slot, pfn, fid, frame), x) == Mem(s, x)
  {
  }

  lemma {:induction false} CopyForkCounts(s: State, slot: Slot, pfn: Pfn, fid: Fid, frame: Pfn)
    requires Core(s)
    requires MapsShared(s, slot, pfn, fid) && 1 < s.forks[fid].refcount && frame !in s.pages
    requires Positive(s)
    ensures CountsFollow(s, CopyFork(s, slot, pfn, fid, frame), slot, 0)
  {
  }

  lemma {:induction false} CopyForkFrames(s: State, slot: Slot, pfn: Pfn, fid: Fid, frame: Pfn)
    requires Core(s)
    requires MapsShared(s, slot, pfn, fid) && 1 < s.forks[fid].refcount && frame !in s.pages
    ensures FramesFollow(s, CopyFork(s, slot, pfn, fid, frame), slot, frame)
  {
  }

  lemma {:induction false} EvictSlots(s: State, slot: Slot)
    requires Core(s)
    requires PteAt(s, slot).Valid? && PteAt(s, slot).pfn in s.pages && 0 < s.pages[PteAt(s, slot).pfn].refcnt
    requires s.pages[PteAt(s, slot).pfn].use.AnonFork? ==> s.pages[PteAt(s, slot).pfn].owner.OfFork?
    ensures SlotsOk(Evict(s, slot))
  {
  }

  lemma {:induction false} EvictRecords(s: State, slot: Slot)
    requires Core(s)
    requires PteAt(s, slot).Valid? && PteAt(s, slot).pfn in s.pages && 0 < s.pages[PteAt(s, slot).pfn].refcnt
    requires s.pages[PteAt(s, slot).pfn].use.AnonFork? ==> s.pages[PteAt(s, slot).pfn].owner.OfFork?
    ensures ForksOk(Evict(s, slot)) && PagesOk(Evict(s, slot))
  {
  }

  lemma {:induction false} EvictView(s: State, slot: Slot)
    requires Core(s)
    requires PteAt(s, slot).Valid? && PteAt(s, slot).pfn in s.pages && 0 < s.pages[PteAt(s, slot).pfn].refcnt
    requires s.pages[PteAt(s, slot).pfn].use.AnonFork? ==> s.pages[PteAt(s, slot).pfn].owner.OfFork?
    ensures OnlySlot(s, Evict(s, slot), slot)
    ensures forall x :: Mem(Evict(s, slot), x) == Mem(s, x)
  {
  }

  lemma {:induction false} EvictCounts(s: State, slot: Slot)
    requires Core(s)
    requires PteAt(s, slot).Valid? && PteAt(s, slot).pfn in s.pages && 0 < s.pages[PteAt(s, slot).pfn].refcnt
    requires s.pages[PteAt(s, slot).pfn].use.AnonFork? ==> s.pages[PteAt(s, slot).pfn].owner.OfFork?
    requires Positive(s)
    ensures CountsFollow(s, Evict(s, slot), slot, 0)
  {
  }

  lemma {:induction false} EvictFrames(s: State, slot: Slot)
    requires Core(s)
    requires PteAt(s, slot).Valid? && PteAt(s, slot).pfn in s.pages && 0 < s.pages[PteAt(s, slot).pfn].refcnt
    requires s.pages[PteAt(s, slot).pfn].use.AnonFork? ==> s.pages[PteAt(s, slot).pfn].owner.OfFork?
    ensures FramesFollow(s, Evict(s, slot), slot, PteAt(s, slot).pfn)
  {
  }

  // ------------------------------------------------- forking keeps the invariant

  /** The parent's half of a conversion: the fork page counts the parent only. */
  function ConvertOnly(s: State, slot: Slot, pfn: Pfn, fid: Fid): State
    requires pfn in s.pages
  {
    var c := ConvertPrivate(s, slot, pfn, fid);
    c.(forks := c.forks[fid := ForkPage(pfn, 1)])
  }

  function AddRef(s: State, slot: Slot, fid: Fid): State
    requires fid in s.forks
  {
    GiveChild(RetainFork(s, fid), slot, fid)
  }

  ghost predicate Convertible(s: State, slot: Slot, pfn: Pfn, fid: Fid) {
    Core(s) && slot in s.ptes && PrivateAt(s, slot) == Some(pfn) && pfn in s.pages && fid !in s.forks
  }

  ghost predicate Addable(s: State, slot: Slot, fid: Fid) {
    Core(s) && slot !in s.ptes && fid in s.forks && slot.pid in s.procs && slot.vpn in s.procs[slot.pid].vads
  }

  lemma {:induction false} ConvertSlots(s: State, slot: Slot, pfn: Pfn, fid: Fid)
    requires Convertible(s, slot, pfn, fid)
    ensures SlotsOk(ConvertOnly(s, slot, pfn, fid))
  {
  }

  lemma {:induction false} ConvertRecords(s: State, slot: Slot, pfn: Pfn, fid: Fid)
    requires Convertible(s, slot, pfn, fid)
    ensures ForksOk(ConvertOnly(s, slot, pfn, fid)) && PagesOk(ConvertOnly(s, slot, pfn, fid))
  {
  }

  lemma {:induction false} ConvertView(s: State, slot: Slot, pfn: Pfn, fid: Fid)
    requires Convertible(s, slot, pfn, fid)
    ensures OnlySlot(s, ConvertOnly(s, slot, pfn, fid), slot)
    ensures forall x :: Mem(ConvertOnly(s, slot, pfn, fid), x) == Mem(s, x)
    ensures FidAt(ConvertOnly(s, slot, pfn, fid), slot) == Some(fid)
  {
  }

  lemma {:induction false} ConvertCounts(s: State, slot: Slot, pfn: Pfn, fid: Fid)
    requires Convertible(s, slot, pfn, fid)
    requires Positive(s)
    ensures CountsFollow(s, ConvertOnly(s, slot, pfn, fid), slot, 1)
  {
  }

  lemma {:induction false} ConvertFrames(s: State, slot: Slot, pfn: Pfn, fid: Fid)
    requires Convertible(s, slot, pfn, fid)
    ensures FramesFollow(s, ConvertOnly(s, slot, pfn, fid), slot, pfn)
  {
  }

  lemma {:induction false} AddRefSlots(s: State, slot: Slot, fid: Fid)
    requires Addable(s, slot, fid)
    ensures SlotsOk(AddRef(s, slot, fid))
  {
  }

  lemma {:induction false} AddRefRecords(s: State, slot: Slot, fid: Fid)
    requires Addable(s, slot, fid)
    ensures ForksOk(AddRef(s, slot, fid)) && PagesOk(AddRef(s, slot, fid))
  {
  }

  lemma {:induction false} AddRefView(s: State, slot: Slot, fid: Fid)
    requires Addable(s, slot, fid)
    ensures OnlySlot(s, AddRef(s, slot, fid), slot)
    ensures forall x :: x != slot ==> Mem(AddRef(s, slot, fid), x) == Mem(s, x)
    ensures Mem(AddRef(s, slot, fid), slot) == s.pages[s.forks[fid].pfn].bytes
  {
  }

  lemma {:induction false} AddRefCounts(s: State, slot: Slot, fid: Fid)
    requires Addable(s, slot, fid)
    requires Positive(s)
    ensures CountsFollow(s, AddRef(s, slot, fid), slot, 0)
  {
  }

  lemma {:induction false} AddRefFrames(s: State, slot: Slot, fid: Fid)
    requires Addable(s, slot, fid)
    ensures FramesFollow(s, AddRef(s, slot, fid), slot, s.forks[fid].pfn)
  {
  }

  lemma {:induction false} ForkMem(s: State, slot: Slot, fid: Fid)
    requires Core(s) && FidAt(s, slot) == Some(fid)
    ensures fid in s.forks && s.forks[fid].pfn in s.pages && Mem(s, slot) == s.pages[s.forks[fid].pfn].bytes
  {
  }

  ghost predicate Tallied(s: State, parent: Pid, extra: nat) {
    Core(s) && Counted(s) && AnonOk(s, parent, extra)
  }

  /** One step that changes one entry. */
  lemma {:induction false} StepKeeps(s: State, s': State, k: Slot, page: Pfn, ahead: nat, parent: Pid, extra: nat)
    requires Tallied(s, parent, extra) && SlotsOk(s') && ForksOk(s') && PagesOk(s') && OnlySlot(s, s', k)
    requires CountsFollow(s, s', k, ahead) && FramesFollow(s, s', k, page) && (ahead == 0 || k.pid == parent)
    ensures Tallied(s', parent, extra + ahead)
  {
    hide SlotsOk, ForksOk, PagesOk, OnlySlot, CountsFollow, FramesFollow, Counted, AnonOk;
    FollowsKeeps(s, s', k, page, ahead, parent, extra);
  }

  lemma {:induction false} ConvertKeeps(s: State, slot: Slot, pfn: Pfn, fid: Fid, extra: nat)
    requires Tallied(s, slot.pid, extra) && Convertible(s, slot, pfn, fid)
    ensures Tallied(ConvertOnly(s, slot, pfn, fid), slot.pid, extra + 1)
  {
    hide SlotsOk, ForksOk, PagesOk, OnlySlot, CountsFollow, FramesFollow, Counted, AnonOk, Mem, Positive, ConvertOnly;
    PositiveOf(s);
    ConvertSlots(s, slot, pfn, fid);
    ConvertRecords(s, slot, pfn, fid);
    ConvertView(s, slot, pfn, fid);
    ConvertCounts(s, slot, pfn, fid);
    ConvertFrames(s, slot, pfn, fid);
    StepKeeps(s, ConvertOnly(s, slot, pfn, fid), slot, pfn, 1, slot.pid, extra);
  }

  lemma {:induction false} AddRefKeeps(s: State, slot: Slot, fid: Fid, parent: Pid, extra: nat)
    requires Tallied(s, parent, extra) && Addable(s, slot, fid)
    ensures Tallied(AddRef(s, slot, fid), parent, extra)
  {
    hide SlotsOk, ForksOk, PagesOk, OnlySlot, CountsFollow, FramesFollow, Counted, AnonOk, Mem, Positive, AddRef;
    PositiveOf(s);
    AddRefSlots(s, slot, fid);
    AddRefRecords(s, slot, fid);
    AddRefView(s, slot, fid);
    AddRefCounts(s, slot, fid);
    AddRefFrames(s, slot, fid);
    StepKeeps(s, AddRef(s, slot, fid), slot, s.forks[fid].pfn, 0, parent, extra);
  }

  /** Ready to copy page `vpn`: the child has nothing there yet. */
  ghost predicate Ready(s: State, parent: Pid, child: Pid, vpn: Vpn) {
    && parent != child && parent in s.procs && child in s.procs
    && vpn in s.procs[child].vads && Slot(child, vpn) !in s.ptes
  }

  /** Nothing changed in what entries other than `a` and `b` refer to. */
  ghost predicate OnlyPair(s: State, s': State, a: Slot, b: Slot) {
    forall x :: x != a && x != b ==> PteAt(s', x) == PteAt(s, x) && PrivateAt(s', x) == PrivateAt(s, x)
  }

  /** State `s'` is `s` with page `vpn` of the parent shared with the child. */
  ghost predicate Copied(s: State, s': State, parent: Pid, child: Pid, vpn: Vpn) {
    && s'.procs == s.procs
    && OnlyPair(s, s', Slot(parent, vpn), Slot(child, vpn))
    && !PrivateAt(s', Slot(parent, vpn)).Some? && !PrivateAt(s', Slot(child, vpn)).Some?
    && Mem(s', Slot(child, vpn)) == Mem(s, Slot(parent, vpn))
    && (forall x :: x != Slot(child, vpn) ==> Mem(s', x) == Mem(s, x))
  }

  lemma {:induction false} OnlySlotPtes(s: State, s': State, k: Slot)
    requires OnlySlot(s, s', k)
    ensures forall x :: x != k ==> PteAt(s', x) == PteAt(s, x) && PrivateAt(s', x) == PrivateAt(s, x)
  {
  }

  lemma {:induction false} AddRefCopied(s: State, s1: State, parent: Pid, child: Pid, vpn: Vpn, fid: Fid)
    requires Addable(s1, Slot(child, vpn), fid) && FidAt(s1, Slot(parent, vpn)) == Some(fid) && parent != child
    requires s1.procs == s.procs && OnlySlot(s, s1, Slot(parent, vpn)) && (forall x :: Mem(s1, x) == Mem(s, x))
    ensures Copied(s, AddRef(s1, Slot(child, vpn), fid), parent, child, vpn)
  {
    var p, c := Slot(parent, vpn), Slot(child, vpn);
    var s' := AddRef(s1, c, fid);
    AddRefView(s1, c, fid);
    ForkMem(s1, p, fid);
    OnlySlotPtes(s, s1, p);
    OnlySlotPtes(s1, s', c);
    assert PteAt(s', c) == ForkPtr(fid);
    assert s'.procs == s.procs;
    assert !PrivateAt(s1, p).Some?;
    hide OnlySlot, AddRef, Core, PteAt, FidOf, PrivateOf, Mem;
  }

  lemma {:induction false} ConvertThenAdd(s: State, p: Slot, c: Slot, pfn: Pfn, fid: Fid)
    requires pfn in s.pages
    ensures AddRef(ConvertOnly(s, p, pfn, fid), c, fid) == GiveChild(ConvertPrivate(s, p, pfn, fid), c, fid)
  {
  }

  lemma {:induction false} ConvertAddable(s: State, p: Slot, c: Slot, pfn: Pfn, fid: Fid)
    requires Convertible(s, p, pfn, fid) && c !in s.ptes && c.pid in s.procs && c.vpn in s.procs[c.pid].vads
    ensures Addable(ConvertOnly(s, p, pfn, fid), c, fid)
  {
    ConvertSlots(s, p, pfn, fid);
    ConvertRecords(s, p, pfn, fid);
  }

  /** One private page of the parent, in two single-entry steps. */
  lemma {:induction false} CowPrivate(s: State, parent: Pid, child: Pid, vpn: Vpn, pfn: Pfn, fid: Fid, extra: nat)
    requires Tallied(s, parent, extra) && Ready(s, parent, child, vpn)
    requires Convertible(s, Slot(parent, vpn), pfn, fid)
    ensures var s' := GiveChild(ConvertPrivate(s, Slot(parent, vpn), pfn, fid), Slot(child, vpn), fid);
            Tallied(s', parent, extra + 1) && Copied(s, s', parent, child, vpn)
  {
    var p, c := Slot(parent, vpn), Slot(child, vpn);
    var s1 := ConvertOnly(s, p, pfn, fid);
    assert s1.procs == s.procs;
    ConvertAddable(s, p, c, pfn, fid);
    ConvertView(s, p, pfn, fid);
    ConvertKeeps(s, p, pfn, fid, extra);
    ConvertThenAdd(s, p, c, pfn, fid);
    hide Core, Counted, AnonOk, OnlySlot, ConvertOnly, AddRef, Convertible, Addable, Mem;
    AddRefKeeps(s1, c, fid, parent, extra + 1);
    AddRefCopied(s, s1, parent, child, vpn, fid);
  }

  lemma {:induction false} SharedAddable(s: State, parent: Pid, child: Pid, vpn: Vpn, fid: Fid)
    requires Core(s) && Ready(s, parent, child, vpn) && fid in s.forks
    ensures Addable(s, Slot(child, vpn), fid) && OnlySlot(s, s, Slot(parent, vpn))
  {
  }

  /** One page the parent already shares. */
  lemma {:induction false} CowShared(s: State, parent: Pid, child: Pid, vpn: Vpn, fid: Fid, extra: nat)
    requires Tallied(s, parent, extra) && Ready(s, parent, child, vpn)
    requires FidAt(s, Slot(parent, vpn)) == Some(fid)
    ensures fid in s.forks
    ensures var s' := GiveChild(RetainFork(s, fid), Slot(child, vpn), fid);
            Tallied(s', parent, extra) && Copied(s, s', parent, child, vpn)
  {
    var p, c := Slot(parent, vpn), Slot(child, vpn);
    ForkMem(s, p, fid);
    SharedAddable(s, parent, child, vpn, fid);
    hide Core, Counted, AnonOk, Addable, Mem, PteAt, FidOf, PrivateOf, Copied;
    AddRefKeeps(s, c, fid, parent, extra);
    AddRefCopied(s, s, parent, child, vpn, fid);
  }

  // ------------------------------------------------------------ the whole fork

  /** The fork pages still in hand are new and as many as the parent's private pages. */
  ghost predicate Supply(s: State, parent: Pid, fids: seq<Fid>) {
    && Distinct(fids) && (forall f :: f in fids ==> f !in s.forks)
    && |fids| == |PrivateSlots(s, parent)|
  }

  /** The pages still to visit: the child has none of them, and every private page
      of the parent is among them. */
  ghost predicate ToDo(s: State, parent: Pid, child: Pid, vpns: seq<Vpn>) {
    && parent != child && parent in s.procs && child in s.procs && Distinct(vpns)
    && (forall v :: v in vpns ==> v in s.procs[child].vads && PteAt(s, Slot(child, v)) == Zero)
    && (forall x :: x in PrivateSlots(s, parent) ==> x.vpn in vpns)
  }

  lemma {:induction false} CowNothing(s: State, parent: Pid, child: Pid, vpn: Vpn)
    requires Core(s) && Ready(s, parent, child, vpn)
    requires PrivateAt(s, Slot(parent, vpn)).None? && FidAt(s, Slot(parent, vpn)).None?
    ensures Copied(s, s, parent, child, vpn)
  {
    assert Slot(parent, vpn) !in s.ptes;
  }

  /** How many preallocated fork pages one iteration uses. */
  ghost predicate Used(s: State, s': State, p: Slot, fids: seq<Fid>, fids': seq<Fid>) {
    if PrivateAt(s, p).Some? then fids != [] && fids' == fids[1..] && s'.forks.Keys == s.forks.Keys + {fids[0]}
    else fids' == fids && s'.forks.Keys == s.forks.Keys
  }

  lemma {:induction false} CowPageCase(s: State, parent: Pid, child: Pid, vpn: Vpn, fids: seq<Fid>)
    requires Core(s) && (PrivateAt(s, Slot(parent, vpn)).Some? ==> fids != [] && fids[0] !in s.forks)
    ensures var p, c := Slot(parent, vpn), Slot(child, vpn);
            var r := CowPage(s, parent, child, vpn, fids);
            && r.Forked? && Used(s, r.s, p, fids, r.fids)
            && (PrivateAt(s, p).Some? ==>
                  && Convertible(s, p, PrivateAt(s, p).value, fids[0])
                  && r.s == GiveChild(ConvertPrivate(s, p, PrivateAt(s, p).value, fids[0]), c, fids[0]))
            && (PrivateAt(s, p).None? && FidAt(s, p).Some? ==>
                  && FidAt(s, p).value in s.forks
                  && r.s == GiveChild(RetainFork(s, FidAt(s, p).value), c, FidAt(s, p).value))
            && (PrivateAt(s, p).None? && FidAt(s, p).None? ==> r.s == s)
  {
  }

  lemma {:induction false} CowPageRuns(s: State, parent: Pid, child: Pid, vpn: Vpn, fids: seq<Fid>, extra: nat)
    requires Tallied(s, parent, extra) && Ready(s, parent, child, vpn)
    requires PrivateAt(s, Slot(parent, vpn)).Some? ==> fids != [] && fids[0] !in s.forks
    ensures var r := CowPage(s, parent, child, vpn, fids);
            && r.Forked? && Used(s, r.s, Slot(parent, vpn), fids, r.fids)
            && Copied(s, r.s, parent, child, vpn)
            && Tallied(r.s, parent, extra + B(PrivateAt(s, Slot(parent, vpn)).Some?))
  {
    var p := Slot(parent, vpn);
    CowPageCase(s, parent, child, vpn, fids);
    hide Core, Counted, AnonOk, CowPage, Convertible, Copied, Used;
    if PrivateAt(s, p).Some? {
      CowPrivate(s, parent, child, vpn, PrivateAt(s, p).value, fids[0], extra);
    } else if FidAt(s, p).Some? {
      CowShared(s, parent, child, vpn, FidAt(s, p).value, extra);
    } else {
      CowNothing(s, parent, child, vpn);
    }
  }

  lemma {:induction false} PrivatesAfter(s: State, s': State, parent: Pid, child: Pid, vpn: Vpn)
    requires Copied(s, s', parent, child, vpn) && parent != child
    ensures PrivateSlots(s', parent) == PrivateSlots(s, parent) - {Slot(parent, vpn)}
  {
    assert forall x :: x in PrivateSlots(s, parent) <==> x.pid == parent && PrivateAt(s, x).Some?;
    assert forall x :: x in PrivateSlots(s', parent) <==> x.pid == parent && PrivateAt(s', x).Some?;
  }

  lemma {:induction false} SupplyAfter(s: State, s': State, parent: Pid, child: Pid, vpn: Vpn, fids: seq<Fid>,
                                       fids': seq<Fid>)
    requires Copied(s, s', parent, child, vpn) && parent != child && Supply(s, parent, fids)
    requires Used(s, s', Slot(parent, vpn), fids, fids')
    ensures Supply(s', parent, fids')
    ensures |fids'| == |fids| - B(PrivateAt(s, Slot(parent, vpn)).Some?)
  {
    PrivatesAfter(s, s', parent, child, vpn);
    var p := Slot(parent, vpn);
    assert p in PrivateSlots(s, parent) <==> PrivateAt(s, p).Some?;
    CardOne(PrivateSlots(s, parent), PrivateSlots(s', parent), p);
    assert fids != [] ==> fids[0] !in fids[1..];
  }

  lemma {:induction false} ToDoAfter(s: State, s': State, parent: Pid, child: Pid, vpns: seq<Vpn>)
    requires vpns != [] && ToDo(s, parent, child, vpns) && Copied(s, s', parent, child, vpns[0])
    ensures ToDo(s', parent, child, vpns[1..])
  {
    PrivatesAfter(s, s', parent, child, vpns[0]);
    assert vpns == [vpns[0]] + vpns[1..];
    assert vpns[0] !in vpns[1..];
  }

  lemma {:induction false} StartPage(s: State, parent: Pid, child: Pid, vpns: seq<Vpn>, fids: seq<Fid>)
    requires Core(s) && ToDo(s, parent, child, vpns) && Supply(s, parent, fids) && vpns != []
    ensures Ready(s, parent, child, vpns[0])
    ensures PrivateAt(s, Slot(parent, vpns[0])).Some? ==> fids != [] && fids[0] !in s.forks
  {
    var p := Slot(parent, vpns[0]);
    assert vpns[0] in vpns;
    assert PrivateAt(s, p).Some? ==> p in PrivateSlots(s, parent);
    assert fids != [] ==> fids[0] in fids;
  }

  /** Each page of `vpns` is shared with the child; nobody else sees a change. */
  ghost predicate AllCopied(s: State, s': State, parent: Pid, child: Pid, vpns: seq<Vpn>) {
    && s'.procs == s.procs
    && (forall v :: v in vpns ==> Mem(s', Slot(child, v)) == Mem(s, Slot(parent, v)))
    && (forall x: Slot :: x.pid != child || x.vpn !in vpns ==> Mem(s', x) == Mem(s, x))
  }

  lemma {:induction false} CopiedThenAll(s: State, s1: State, s': State, parent: Pid, child: Pid, vpns: seq<Vpn>)
    requires vpns != [] && parent != child && Distinct(vpns)
    requires Copied(s, s1, parent, child, vpns[0]) && AllCopied(s1, s', parent, child, vpns[1..])
    ensures AllCopied(s, s', parent, child, vpns)
  {
    var v0 := vpns[0];
    assert vpns == [v0] + vpns[1..];
    assert v0 !in vpns[1..];
    assert Mem(s', Slot(child, v0)) == Mem(s1, Slot(child, v0));
    forall v | v in vpns ensures Mem(s', Slot(child, v)) == Mem(s, Slot(parent, v)) {
      if v != v0 {
        assert Mem(s1, Slot(parent, v)) == Mem(s, Slot(parent, v));
      }
    }
  }

  lemma {:induction false} CowPagesDone(s: State, parent: Pid, child: Pid, fids: seq<Fid>)
    requires ToDo(s, parent, child, []) && Supply(s, parent, fids)
    ensures PrivateSlots(s, parent) == {} && fids == [] && AllCopied(s, s, parent, child, [])
  {
    assert PrivateSlots(s, parent) == {};
  }

  lemma {:induction false} CowPagesNext(s: State, parent: Pid, child: Pid, vpns: seq<Vpn>, fids: seq<Fid>, extra: nat)
    requires Tallied(s, parent, extra) && ToDo(s, parent, child, vpns) && Supply(s, parent, fids) && vpns != []
    ensures parent != child && Distinct(vpns)
    ensures var r := CowPage(s, parent, child, vpns[0], fids);
            && r.Forked? && |r.fids| <= |fids| && Tallied(r.s, parent, extra + |fids| - |r.fids|)
            && ToDo(r.s, parent, child, vpns[1..]) && Supply(r.s, parent, r.fids)
            && Copied(s, r.s, parent, child, vpns[0])
  {
    StartPage(s, parent, child, vpns, fids);
    hide Core, Counted, AnonOk, Supply, Copied, Used, CowPage, Ready;
    CowPageRuns(s, parent, child, vpns[0], fids, extra);
    var r := CowPage(s, parent, child, vpns[0], fids);
    SupplyAfter(s, r.s, parent, child, vpns[0], fids, r.fids);
    ToDoAfter(s, r.s, parent, child, vpns);
  }

  lemma {:induction false} CowPagesRuns(s: State, parent: Pid, child: Pid, vpns: seq<Vpn>, fids: seq<Fid>, extra: nat)
    requires Tallied(s, parent, extra) && ToDo(s, parent, child, vpns) && Supply(s, parent, fids)
    ensures var r := CowPages(s, parent, child, vpns, fids);
            && r.Forked? && r.fids == [] && Tallied(r.s, parent, extra + |fids|)
            && AllCopied(s, r.s, parent, child, vpns) && PrivateSlots(r.s, parent) == {}
    decreases |vpns|
  {
    hide Tallied, Supply, ToDo, Copied, CowPage, PrivateSlots, AllCopied, Distinct;
    if vpns == [] {
      CowPagesDone(s, parent, child, fids);
    } else {
      CowPagesNext(s, parent, child, vpns, fids, extra);
      var r := CowPage(s, parent, child, vpns[0], fids);
      CowPagesRuns(r.s, parent, child, vpns[1..], r.fids, extra + |fids| - |r.fids|);
      CopiedThenAll(s, r.s, CowPages(r.s, parent, child, vpns[1..], r.fids).s, parent, child, vpns);
    }
  }

  // ------------------------------------------- every fault keeps what is read

  /** `s'` is a good state in which everybody reads what they read in `s`. */
  ghost predicate Quiet(s: State, s': State) {
    Inv(s') && (forall x :: Mem(s', x) == Mem(s, x))
  }

  /** A valid entry holds a reference to its frame, so releasing it is legal. */
  lemma {:induction false} MappedCounted(s: State, slot: Slot)
    requires Inv(s) && PteAt(s, slot).Valid?
    ensures PteAt(s, slot).pfn in s.pages && 0 < s.pages[PteAt(s, slot).pfn].refcnt
    ensures s.pages[PteAt(s, slot).pfn].use.AnonFork? ==> s.pages[PteAt(s, slot).pfn].owner.OfFork?
  {
    var pfn := PteAt(s, slot).pfn;
    assert slot in Mappers(s, pfn);
    assert |Mappers(s, pfn)| != 0;
  }

  lemma {:induction false} ZeroFillQuiet(s: State, slot: Slot, write: bool, pfn: Pfn)
    requires Inv(s)
    requires slot !in s.ptes && pfn !in s.pages
    requires slot.pid in s.procs && slot.vpn in s.procs[slot.pid].vads
    ensures Quiet(s, ZeroFill(s, slot, write, pfn))
  {
    hide SlotsOk, ForksOk, PagesOk, OnlySlot, CountsFollow, FramesFollow, Counted, AnonOk, Mem, Positive, ZeroFill;
    PositiveOf(s);
    ZeroFillSlots(s, slot, write, pfn);
    ZeroFillRecords(s, slot, write, pfn);
    ZeroFillView(s, slot, write, pfn);
    ZeroFillCounts(s, slot, write, pfn);
    ZeroFillFrames(s, slot, write, pfn);
    StepKeeps(s, ZeroFill(s, slot, write, pfn), slot, pfn, 0, 0, 0);
  }

  lemma {:induction false} TransFaultQuiet(s: State, slot: Slot, pfn: Pfn, write: bool)
    requires Inv(s)
    requires PteAt(s, slot) == Trans(pfn) && pfn in s.pages
    ensures Quiet(s, TransFault(s, slot, pfn, write))
  {
    hide SlotsOk, ForksOk, PagesOk, OnlySlot, CountsFollow, FramesFollow, Counted, AnonOk, Mem, Positive, TransFault;
    PositiveOf(s);
    TransFaultSlots(s, slot, pfn, write);
    TransFaultRecords(s, slot, pfn, write);
    TransFaultView(s, slot, pfn, write);
    TransFaultCounts(s, slot, pfn, write);
    TransFaultFrames(s, slot, pfn, write);
    StepKeeps(s, TransFault(s, slot, pfn, write), slot, pfn, 0, 0, 0);
  }

  lemma {:induction false} ForkFaultQuiet(s: State, slot: Slot, fid: Fid)
    requires Inv(s)
    requires PteAt(s, slot) == ForkPtr(fid) && fid in s.forks && s.forks[fid].pfn in s.pages
    ensures Quiet(s, ForkFault(s, slot, fid))
  {
    hide SlotsOk, ForksOk, PagesOk, OnlySlot, CountsFollow, FramesFollow, Counted, AnonOk, Mem, Positive, ForkFault;
    PositiveOf(s);
    ForkFaultSlots(s, slot, fid);
    ForkFaultRecords(s, slot, fid);
    ForkFaultView(s, slot, fid);
    ForkFaultCounts(s, slot, fid);
    ForkFaultFrames(s, slot, fid);
    StepKeeps(s, ForkFault(s, slot, fid), slot, s.forks[fid].pfn, 0, 0, 0);
  }

  lemma {:induction false} DirtyFaultQuiet(s: State, slot: Slot, pfn: Pfn)
    requires Inv(s)
    requires PteAt(s, slot) == Valid(pfn, false) && pfn in s.pages && s.pages[pfn].use.AnonPrivate?
    ensures Quiet(s, DirtyFault(s, slot, pfn))
  {
    hide SlotsOk, ForksOk, PagesOk, OnlySlot, CountsFollow, FramesFollow, Counted, AnonOk, Mem, Positive, DirtyFault;
    PositiveOf(s);
    DirtyFaultSlots(s, slot, pfn);
    DirtyFaultRecords(s, slot, pfn);
    DirtyFaultView(s, slot, pfn);
    DirtyFaultCounts(s, slot, pfn);
    DirtyFaultFrames(s, slot, pfn);
    StepKeeps(s, DirtyFault(s, slot, pfn), slot, pfn, 0, 0, 0);
  }

  lemma {:induction false} TakeOverQuiet(s: State, slot: Slot, pfn: Pfn, fid: Fid)
    requires Inv(s)
    requires MapsShared(s, slot, pfn, fid) && Refs(s, fid) == {slot}
    ensures Quiet(s, TakeOver(s, slot, pfn, fid))
  {
    hide SlotsOk, ForksOk, PagesOk, OnlySlot, CountsFollow, FramesFollow, Counted, AnonOk, Mem, Positive, TakeOver;
    PositiveOf(s);
    TakeOverSlots(s, slot, pfn, fid);
    TakeOverRecords(s, slot, pfn, fid);
    TakeOverView(s, slot, pfn, fid);
    TakeOverCounts(s, slot, pfn, fid);
    TakeOverFrames(s, slot, pfn, fid);
    StepKeeps(s, TakeOver(s, slot, pfn, fid), slot, pfn, 0, 0, 0);
  }

  lemma {:induction false} CopyForkQuiet(s: State, slot: Slot, pfn: Pfn, fid: Fid, frame: Pfn)
    requires Inv(s)
    requires MapsShared(s, slot, pfn, fid) && 1 < s.forks[fid].refcount && frame !in s.pages
    ensures Quiet(s, CopyFork(s, slot, pfn, fid, frame))
  {
    hide SlotsOk, ForksOk, PagesOk, OnlySlot, CountsFollow, FramesFollow, Counted, AnonOk, Mem, Positive, CopyFork;
    PositiveOf(s);
    CopyForkSlots(s, slot, pfn, fid, frame);
    CopyForkRecords(s, slot, pfn, fid, frame);
    CopyForkView(s, slot, pfn, fid, frame);
    CopyForkCounts(s, slot, pfn, fid, frame);
    CopyForkFrames(s, slot, pfn, fid, frame);
    StepKeeps(s, CopyFork(s, slot, pfn, fid, frame), slot, frame, 0, 0, 0);
  }

  lemma {:induction false} EvictQuiet(s: State, slot: Slot)
    requires Inv(s)
    requires PteAt(s, slot).Valid? && PteAt(s, slot).pfn in s.pages && 0 < s.pages[PteAt(s, slot).pfn].refcnt
    requires s.pages[PteAt(s, slot).pfn].use.AnonFork? ==> s.pages[PteAt(s, slot).pfn].owner.OfFork?
    ensures Quiet(s, Evict(s, slot))
  {
    hide SlotsOk, ForksOk, PagesOk, OnlySlot, CountsFollow, FramesFollow, Counted, AnonOk, Mem, Positive, Evict;
    PositiveOf(s);
    EvictSlots(s, slot);
    EvictRecords(s, slot);
    EvictView(s, slot);
    EvictCounts(s, slot);
    EvictFrames(s, slot);
    StepKeeps(s, Evict(s, slot), slot, PteAt(s, slot).pfn, 0, 0, 0);
  }
}
