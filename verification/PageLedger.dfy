/**
  The page-frame database's ledgers: what every allocated block is used for, who
  refers to it, which page queue it is on, and the counters kept beside it.
 */
module PageLedger {
  import opened Buddy
  import opened BuddyAllocator
  import opened Counting
  import opened Numbers
  import opened Queues

  /** `enum vm_page_use`, for blocks that are not free. */
  datatype Use =
    | Deleted | KWired | AnonPrivate | FileShared | AnonShared | AnonFork
    | PML1 | PML2 | PML3 | PML4 | VPML1 | VPML2 | VPML3 | VPML4

  datatype Page = Page(order: nat, use: Use, refcnt: nat, dirty: bool)

  /** The counters by use. */
  datatype Stat =
    | NDeleted | NAnonShare | NAnonPrivate | NAnonFork | NFileShared | NKWired | NProcPgtable | NProtoPgtable

  /** `update_page_use_stats`: which counter a use is counted in. */
  function StatOf(use: Use): Stat {
    match use
    case Deleted => NDeleted
    case AnonShared => NAnonShare
    case AnonPrivate => NAnonPrivate
    case AnonFork => NAnonFork
    case FileShared => NFileShared
    case KWired => NKWired
    case PML1 => NProcPgtable
    case PML2 => NProcPgtable
    case PML3 => NProcPgtable
    case PML4 => NProcPgtable
    case VPML1 => NProtoPgtable
    case VPML2 => NProtoPgtable
    case VPML3 => NProtoPgtable
    case VPML4 => NProtoPgtable
  }

  /** The uses whose pages go on a page queue when nothing refers to them. */
  predicate Pageable(use: Use) {
    use.PML1? || use.PML2? || use.PML3? || use.AnonShared? || use.AnonPrivate? || use.AnonFork? || use.FileShared?
  }

  predicate IsActive(p: Page) {
    0 < p.refcnt
  }

  predicate IsModified(p: Page) {
    p.refcnt == 0 && p.dirty
  }

  predicate IsStandby(p: Page) {
    p.refcnt == 0 && !p.dirty
  }

  predicate Any(p: Page) {
    true
  }

  function Counted(st: Stat): Page -> bool {
    (p: Page) => StatOf(p.use) == st
  }

  // ------------------------------------------------------------------------ sums

  function Weight(p: Page, sel: Page -> bool): nat {
    if sel(p) then Pow2(p.order) else 0
  }

  /** The number of frames in the blocks that satisfy `sel`. */
  ghost function Total(pages: map<Pfn, Page>, sel: Page -> bool): nat
    decreases |pages|
  {
    if pages == map[] then 0
    else
      var p :| p in pages;
      Weight(pages[p], sel) + Total(pages - {p}, sel)
  }

  lemma {:induction false} TotalAt(pages: map<Pfn, Page>, p: Pfn, sel: Page -> bool)
    requires p in pages
    ensures Total(pages, sel) == Weight(pages[p], sel) + Total(pages - {p}, sel)
    decreases |pages|
  {
    var q :| q in pages && Total(pages, sel) == Weight(pages[q], sel) + Total(pages - {q}, sel);
    if q != p {
      TotalAt(pages - {q}, p, sel);
      TotalAt(pages - {p}, q, sel);
      assert pages - {q} - {p} == pages - {p} - {q};
    }
  }

  lemma {:induction false} TotalPut(pages: map<Pfn, Page>, p: Pfn, page: Page, sel: Page -> bool)
    ensures Total(pages[p := page], sel) == Weight(page, sel) + Total(pages - {p}, sel)
  {
    TotalAt(pages[p := page], p, sel);
    assert pages[p := page] - {p} == pages - {p};
  }

  lemma {:induction false} TotalChange(pages: map<Pfn, Page>, p: Pfn, page: Page, sel: Page -> bool)
    requires p in pages
    ensures Total(pages[p := page], sel) == Total(pages, sel) - Weight(pages[p], sel) + Weight(page, sel)
  {
    TotalAt(pages, p, sel);
    TotalPut(pages, p, page, sel);
  }

  lemma {:induction false} TotalAdd(pages: map<Pfn, Page>, p: Pfn, page: Page, sel: Page -> bool)
    requires p !in pages
    ensures Total(pages[p := page], sel) == Total(pages, sel) + Weight(page, sel)
  {
    TotalPut(pages, p, page, sel);
    assert pages - {p} == pages;
  }

  // ------------------------------------------------------------------- the ledger

  datatype Ledger = Ledger(
    pages: map<Pfn, Page>,
    modified: seq<Pfn>,
    standby: seq<Pfn>,
    nactive: int,
    nmodified: int,
    nstandby: int,
    stats: map<Stat, int>)

  ghost predicate Queued(pages: map<Pfn, Page>, q: seq<Pfn>, sel: Page -> bool) {
    Distinct(q) && forall p :: p in q <==> p in pages && sel(pages[p])
  }

  /** A page nothing refers to is of a pageable use, and pageable blocks are single
      pages. */
  predicate PageOk(p: Page) {
    (p.refcnt == 0 ==> Pageable(p.use)) && (Pageable(p.use) ==> p.order == 0)
  }

  /** Each counter is the number of frames it is named for, and each page queue holds
      exactly the pages whose fields say so. */
  ghost predicate Booked(g: Ledger) {
    && (forall p :: p in g.pages ==> PageOk(g.pages[p]))
    && Queued(g.pages, g.modified, IsModified) && Queued(g.pages, g.standby, IsStandby)
    && g.nactive == Total(g.pages, IsActive) && g.nmodified == Total(g.pages, IsModified)
    && g.nstandby == Total(g.pages, IsStandby)
    && (forall st :: st in g.stats && g.stats[st] == Total(g.pages, Counted(st)))
  }

  function Requeue(q: seq<Pfn>, p: Pfn, was: bool, now: bool): seq<Pfn> {
    if was == now then q else if now then q + [p] else Without(q, p)
  }

  function Restat(stats: map<Stat, int>, st: Stat, n: int): map<Stat, int>
    requires st in stats
  {
    stats[st := stats[st] + n]
  }

  /** A block's fields change: it moves between the queues and the counters. */
  function Change(g: Ledger, p: Pfn, page: Page): Ledger
    requires p in g.pages && forall st :: st in g.stats
  {
    var was := g.pages[p];
    var n: int := Pow2(was.order);
    Ledger(g.pages[p := page],
           Requeue(g.modified, p, IsModified(was), IsModified(page)),
           Requeue(g.standby, p, IsStandby(was), IsStandby(page)),
           g.nactive + n * (B(IsActive(page)) - B(IsActive(was))),
           g.nmodified + n * (B(IsModified(page)) - B(IsModified(was))),
           g.nstandby + n * (B(IsStandby(page)) - B(IsStandby(was))),
           Restat(Restat(g.stats, StatOf(was.use), -n), StatOf(page.use), n))
  }

  /** A block goes back to the buddy allocator. */
  function Drop(g: Ledger, p: Pfn): Ledger
    requires p in g.pages && forall st :: st in g.stats
  {
    var was := g.pages[p];
    var n: int := Pow2(was.order);
    Ledger(g.pages - {p},
           Requeue(g.modified, p, IsModified(was), false), Requeue(g.standby, p, IsStandby(was), false),
           g.nactive - n * B(IsActive(was)), g.nmodified - n * B(IsModified(was)), g.nstandby - n * B(IsStandby(was)),
           Restat(g.stats, StatOf(was.use), -n))
  }

  /** A block comes from the buddy allocator, in use by whoever asked. */
  function Add(g: Ledger, p: Pfn, order: nat, use: Use): Ledger
    requires forall st :: st in g.stats
  {
    g.(pages := g.pages[p := Page(order, use, 1, false)], nactive := g.nactive + Pow2(order),
       stats := Restat(g.stats, StatOf(use), Pow2(order)))
  }

  lemma {:induction false} RequeueOk(pages: map<Pfn, Page>, q: seq<Pfn>, sel: Page -> bool, p: Pfn, page: Page)
    requires Queued(pages, q, sel) && p in pages
    ensures Queued(pages[p := page], Requeue(q, p, sel(pages[p]), sel(page)), sel)
    ensures Queued(pages - {p}, Requeue(q, p, sel(pages[p]), false), sel)
  {
    if p !in q {
      WithLast(q, p);
    }
    WithoutDistinct(q, p);
  }

  lemma {:induction false} ChangeTotal(pages: map<Pfn, Page>, p: Pfn, page: Page, sel: Page -> bool)
    requires p in pages && page.order == pages[p].order
    ensures Total(pages[p := page], sel) == Total(pages, sel) + Pow2(page.order) * (B(sel(page)) - B(sel(pages[p])))
    ensures Total(pages - {p}, sel) == Total(pages, sel) - Pow2(page.order) * B(sel(pages[p]))
  {
    TotalAt(pages, p, sel);
    TotalChange(pages, p, page, sel);
  }

  lemma {:induction false} ChangeStats(g: Ledger, p: Pfn, page: Page, st: Stat)
    requires p in g.pages && page.order == g.pages[p].order && (forall st :: st in g.stats)
    requires g.stats[st] == Total(g.pages, Counted(st))
    ensures Change(g, p, page).stats[st] == Total(g.pages[p := page], Counted(st))
    ensures Drop(g, p).stats[st] == Total(g.pages - {p}, Counted(st))
  {
    hide Total, Pow2;
    ChangeTotal(g.pages, p, page, Counted(st));
  }

  /** Every change of a block's fields that keeps it a proper page keeps the books. */
  lemma {:induction false} ChangeKeeps(g: Ledger, p: Pfn, page: Page)
    requires Booked(g) && p in g.pages && page.order == g.pages[p].order && PageOk(page)
    ensures Booked(Change(g, p, page))
  {
    hide Total, Pow2, Queued;
    RequeueOk(g.pages, g.modified, IsModified, p, page);
    RequeueOk(g.pages, g.standby, IsStandby, p, page);
    ChangeTotal(g.pages, p, page, IsActive);
    ChangeTotal(g.pages, p, page, IsModified);
    ChangeTotal(g.pages, p, page, IsStandby);
    forall st
      ensures st in Change(g, p, page).stats
      ensures Change(g, p, page).stats[st] == Total(g.pages[p := page], Counted(st))
    {
      ChangeStats(g, p, page, st);
    }
  }

  lemma {:induction false} DropKeeps(g: Ledger, p: Pfn)
    requires Booked(g) && p in g.pages
    ensures Booked(Drop(g, p))
  {
    hide Total, Pow2, Queued;
    var page := g.pages[p];
    RequeueOk(g.pages, g.modified, IsModified, p, page);
    RequeueOk(g.pages, g.standby, IsStandby, p, page);
    ChangeTotal(g.pages, p, page, IsActive);
    ChangeTotal(g.pages, p, page, IsModified);
    ChangeTotal(g.pages, p, page, IsStandby);
    forall st ensures st in Drop(g, p).stats && Drop(g, p).stats[st] == Total(g.pages - {p}, Counted(st)) {
      ChangeStats(g, p, page, st);
    }
  }

  lemma {:induction false} AddQueued(pages: map<Pfn, Page>, q: seq<Pfn>, sel: Page -> bool, p: Pfn, page: Page)
    requires Queued(pages, q, sel) && p !in pages && !sel(page)
    ensures Queued(pages[p := page], q, sel)
  {
  }

  lemma {:induction false} AddStats(g: Ledger, p: Pfn, order: nat, use: Use, st: Stat)
    requires Booked(g) && p !in g.pages
    ensures st in Add(g, p, order, use).stats
    ensures Add(g, p, order, use).stats[st] == Total(g.pages[p := Page(order, use, 1, false)], Counted(st))
  {
    hide Total, Pow2, Queued;
    TotalAdd(g.pages, p, Page(order, use, 1, false), Counted(st));
  }

  lemma {:induction false} AddKeeps(g: Ledger, p: Pfn, order: nat, use: Use)
    requires Booked(g) && p !in g.pages && (Pageable(use) ==> order == 0)
    ensures Booked(Add(g, p, order, use))
  {
    var page := Page(order, use, 1, false);
    hide Total, Pow2, Queued;
    AddQueued(g.pages, g.modified, IsModified, p, page);
    AddQueued(g.pages, g.standby, IsStandby, p, page);
    TotalAdd(g.pages, p, page, IsActive);
    TotalAdd(g.pages, p, page, IsModified);
    TotalAdd(g.pages, p, page, IsStandby);
    forall st
      ensures st in Add(g, p, order, use).stats
      ensures Add(g, p, order, use).stats[st] == Total(g.pages[p := page], Counted(st))
    {
      AddStats(g, p, order, use, st);
    }
  }

  /** The frames on no free list, counted by state. */
  function InUse(g: Ledger): int {
    g.nactive + g.nmodified + g.nstandby
  }

  /** The frames on no free list, counted by use. */
  function ByUse(stats: map<Stat, int>): int
    requires forall st :: st in stats
  {
    stats[NDeleted] + stats[NAnonShare] + stats[NAnonPrivate] + stats[NAnonFork]
    + stats[NFileShared] + stats[NKWired] + stats[NProcPgtable] + stats[NProtoPgtable]
  }

  lemma {:induction false} ByPlace(pages: map<Pfn, Page>)
    ensures Total(pages, IsActive) + Total(pages, IsModified) + Total(pages, IsStandby) == Total(pages, Any)
    decreases |pages|
  {
    if pages != map[] {
      var p :| p in pages;
      ByPlace(pages - {p});
      TotalAt(pages, p, IsActive);
      TotalAt(pages, p, IsModified);
      TotalAt(pages, p, IsStandby);
      TotalAt(pages, p, Any);
    }
  }

  ghost function TotalByUse(pages: map<Pfn, Page>): nat {
    Total(pages, Counted(NDeleted)) + Total(pages, Counted(NAnonShare)) + Total(pages, Counted(NAnonPrivate))
    + Total(pages, Counted(NAnonFork)) + Total(pages, Counted(NFileShared)) + Total(pages, Counted(NKWired))
    + Total(pages, Counted(NProcPgtable)) + Total(pages, Counted(NProtoPgtable))
  }

  lemma {:induction false} OneUse(page: Page)
    ensures Weight(page, Counted(NDeleted)) + Weight(page, Counted(NAnonShare)) + Weight(page, Counted(NAnonPrivate))
            + Weight(page, Counted(NAnonFork)) + Weight(page, Counted(NFileShared)) + Weight(page, Counted(NKWired))
            + Weight(page, Counted(NProcPgtable)) + Weight(page, Counted(NProtoPgtable)) == Weight(page, Any)
  {
    hide Pow2;
  }

  lemma {:induction false} ByUseTotal(pages: map<Pfn, Page>)
    ensures TotalByUse(pages) == Total(pages, Any)
    decreases |pages|
  {
    if pages != map[] {
      hide Total, Weight, Counted;
      var p :| p in pages;
      ByUseTotal(pages - {p});
      OneUse(pages[p]);
      TotalAt(pages, p, Counted(NDeleted));
      TotalAt(pages, p, Counted(NAnonShare));
      TotalAt(pages, p, Counted(NAnonPrivate));
      TotalAt(pages, p, Counted(NAnonFork));
      TotalAt(pages, p, Counted(NFileShared));
      TotalAt(pages, p, Counted(NKWired));
      TotalAt(pages, p, Counted(NProcPgtable));
      TotalAt(pages, p, Counted(NProtoPgtable));
      TotalAt(pages, p, Any);
    }
  }

  /** Both ledgers count the same frames: every allocated one. */
  lemma {:induction false} TwoLedgers(g: Ledger)
    requires Booked(g)
    ensures ByUse(g.stats) == InUse(g)
  {
    hide Total, Queued;
    ByPlace(g.pages);
    ByUseTotal(g.pages);
  }
}
