/**
  Resident-page management: allocation with stealing, deletion, references and page
  queues, over the buddy allocator. Page-table entries are not part of this model.
 */
module ResidentPages {
  import opened Buddy
  import opened BuddyAllocator
  import opened BuddyRegions
  import opened Numbers
  import opened Options
  import opened PageLedger
  import opened Queues

  const FREE_LOW := 64
  const AVAIL_VERY_LOW := 96

  datatype AllocResult = Got(page: Pfn) | Shortage | OutOfPages

  /** The ledger's blocks are the allocator's blocks in use by somebody. */
  ghost predicate Matches(used: map<Pfn, Block>, pages: map<Pfn, Page>) {
    && (forall p :: p in pages <==> p in used && used[p].kind.Allocated?)
    && (forall p :: p in pages ==> pages[p].order == used[p].order)
  }

  lemma {:induction false} MatchesChange(used: map<Pfn, Block>, pages: map<Pfn, Page>, p: Pfn, page: Page)
    requires Matches(used, pages) && p in pages && page.order == pages[p].order
    ensures Matches(used, pages[p := page])
  {
  }

  lemma {:induction false} MatchesDrop(used: map<Pfn, Block>, pages: map<Pfn, Page>, p: Pfn)
    requires Matches(used, pages) && p in pages
    ensures Matches(NotUsed(used, p), pages - {p})
  {
  }

  lemma {:induction false} MatchesAdd(used: map<Pfn, Block>, pages: map<Pfn, Page>, p: Pfn, page: Page)
    requires Matches(used, pages)
    ensures Matches(used[p := Block(page.order, Allocated)], pages[p := page])
  {
  }

  lemma {:induction false} MatchedBlock(l: Layout, pages: map<Pfn, Page>, p: Pfn)
    requires Matches(UsedBlocks(l), pages) && p in pages
    ensures p in l.blocks && l.blocks[p] == Block(pages[p].order, Allocated)
  {
  }

  class ResidentPageManager {
    const db: PageFrameDatabase
    var pages: map<Pfn, Page>
    var modified: seq<Pfn>
    var standby: seq<Pfn>
    var nactive: int
    var nmodified: int
    var nstandby: int
    var stats: map<Stat, int>

    function View(): Ledger
      reads this
    {
      Ledger(pages, modified, standby, nactive, nmodified, nstandby, stats)
    }

    /** Every frame is wired, free or counted in one of the page states. */
    ghost predicate Balanced()
      reads this, db
    {
      db.ntotal == db.npwired + nactive + db.nfree + nmodified + nstandby
    }

    ghost predicate Valid()
      reads this, db
    {
      db.Valid() && Booked(View()) && Matches(UsedBlocks(db.layout), pages) && Balanced()
    }

    constructor (database: PageFrameDatabase)
      requires database.Valid() && forall h :: h in database.layout.blocks ==>
                 !database.layout.blocks[h].kind.Allocated?
      ensures Valid() && db == database && pages == map[]
    {
      db := database;
      pages, modified, standby := map[], [], [];
      nactive, nmodified, nstandby := 0, 0, 0;
      stats := ZeroStats();
      new;
      hide Good, AtRest, Booked, UsedBlocks, FreePages, WiredPages, ZeroStats, Matches;
      BootBalance(db.layout, db.pfndb, db.queues);
      EmptyBooks(View());
    }

    /** `vmp_page_retain_locked`. */
    method Retain(p: Pfn)
      requires Valid() && p in pages
      modifies this
      ensures Valid() && View() == Change(old(View()), p, old(pages[p]).(refcnt := old(pages[p]).refcnt + 1))
      ensures pages == old(pages)[p := old(pages[p]).(refcnt := old(pages[p]).refcnt + 1)]
      ensures p !in modified && p !in standby
      ensures forall q :: q != p ==> (q in modified <==> q in old(modified)) && (q in standby <==> q in old(standby))
    {
      hide Booked, UsedBlocks, Matches, Pow2, PageFrameDatabase.Valid;
      BookedPage(View(), p);
      var page := pages[p].(refcnt := pages[p].refcnt + 1);
      ChangeKeeps(View(), p, page);
      MatchesChange(UsedBlocks(db.layout), pages, p, page);
      RestatSame(stats, StatOf(page.use), Pow2(page.order));
      var npages := Pow2(pages[p].order);
      if pages[p].refcnt == 0 {
        assert !pages[p].use.Deleted?;
        if pages[p].dirty {
          modified := Without(modified, p);
          nmodified := nmodified - npages;
          nactive := nactive + npages;
        } else {
          standby := Without(standby, p);
          nstandby := nstandby - npages;
          nactive := nactive + npages;
        }
      }
      pages := pages[p := page];
      OnQueues(View(), p);
    }

    /** The last reference to a deleted block goes: it leaves the ledger and is freed
        (`vmp_page_free_locked`). */
    method FreeBlock(p: Pfn)
      requires Valid() && p in pages && pages[p].use.Deleted?
      modifies this, db
      ensures Valid() && View() == Drop(old(View()), p) && db.nfree == old(db.nfree) + Pow2(old(pages[p]).order)
    {
      hide Booked, UsedBlocks, Matches, Pow2, PageFrameDatabase.Valid, Joined, FreePages, Extent, NoStale, Keeps;
      BookedPage(View(), p);
      var npages := Pow2(pages[p].order);
      DropKeeps(View(), p);
      MatchedBlock(db.layout, pages, p);
      MatchesDrop(UsedBlocks(db.layout), pages, p);
      db.FreePagesAt(p);
      nactive := nactive - npages;
      stats := stats[NDeleted := stats[NDeleted] - npages];
      pages := pages - {p};
    }

    /** `vmp_page_release_locked`. Dropping the last reference to a page wired by the kernel,
        to a top-level page table or to a prototype page table stops the kernel. */
    method Release(p: Pfn) returns (ok: bool)
      requires Valid() && p in pages && 0 < pages[p].refcnt
      modifies this, db
      ensures ok <==> !(old(pages[p]).refcnt == 1 && old(pages[p]).use in {KWired, PML4, VPML1, VPML2, VPML3, VPML4})
      ensures ok && old(pages[p]).refcnt == 1 && old(pages[p]).use.Deleted? ==>
                pages == old(pages) - {p} && modified == old(modified) && standby == old(standby)
      ensures ok && !(old(pages[p]).refcnt == 1 && old(pages[p]).use.Deleted?) ==>
                && pages == old(pages)[p := old(pages[p]).(refcnt := old(pages[p]).refcnt - 1)]
                && modified == old(modified) + (if pages[p].refcnt == 0 && pages[p].dirty then [p] else [])
                && standby == old(standby) + (if pages[p].refcnt == 0 && !pages[p].dirty then [p] else [])
      ensures var page := old(pages[p]);
              && (!ok ==> View() == old(View()))
              && (ok && page.refcnt == 1 && page.use.Deleted? ==>
                    View() == Drop(old(View()), p) && db.nfree == old(db.nfree) + Pow2(page.order))
              && (ok && !(page.refcnt == 1 && page.use.Deleted?) ==>
                    View() == Change(old(View()), p, page.(refcnt := page.refcnt - 1)) && db.nfree == old(db.nfree))
      ensures Valid()
    {
      hide Booked, UsedBlocks, Matches, Pow2, PageFrameDatabase.Valid;
      BookedPage(View(), p);
      if pages[p].refcnt == 1 && pages[p].use.Deleted? {
        FreeBlock(p);
        return true;
      }
      var page := pages[p].(refcnt := pages[p].refcnt - 1);
      if page.refcnt == 0 && !Pageable(page.use) {
        return false;
      }
      ChangeKeeps(View(), p, page);
      MatchesChange(UsedBlocks(db.layout), pages, p, page);
      RestatSame(stats, StatOf(page.use), Pow2(page.order));
      var npages := Pow2(pages[p].order);
      if page.refcnt == 0 {
        nactive := nactive - npages;
        if page.dirty {
          modified := modified + [p];
          nmodified := nmodified + npages;
        } else {
          standby := standby + [p];
          nstandby := nstandby + npages;
        }
      }
      pages := pages[p := page];
      ok := true;
    }

    /** `vmp_page_delete_locked` of a page nobody refers to: off its queue and freed. */
    method DeleteInactive(p: Pfn)
      requires Valid() && p in pages && pages[p].refcnt == 0
      modifies this, db
      ensures Valid() && View() == Drop(old(View()), p) && db.nfree == old(db.nfree) + Pow2(old(pages[p]).order)
    {
      hide Booked, UsedBlocks, Matches, Pow2, PageFrameDatabase.Valid, Joined, FreePages, Extent, NoStale, Keeps,
        Without;
      BookedPage(View(), p);
      var npages := Pow2(pages[p].order);
      var st := StatOf(pages[p].use);
      DropKeeps(View(), p);
      MatchedBlock(db.layout, pages, p);
      MatchesDrop(UsedBlocks(db.layout), pages, p);
      stats := stats[st := stats[st] - npages];
      stats := stats[NDeleted := stats[NDeleted] + npages];
      if pages[p].dirty {
        modified := Without(modified, p);
        nmodified := nmodified - npages;
      } else {
        standby := Without(standby, p);
        nstandby := nstandby - npages;
      }
      db.FreePagesAt(p);
      stats := stats[NDeleted := stats[NDeleted] - npages];
      assert stats == Restat(old(stats), st, 0 - npages);
      pages := pages - {p};
    }

    /** `vmp_page_delete_locked`: a page nobody refers to is freed at once. */
    method Delete(p: Pfn)
      requires Valid() && p in pages && !pages[p].use.Deleted?
      modifies this, db
      ensures Valid()
      ensures var page := old(pages[p]);
              if page.refcnt == 0 then View() == Drop(old(View()), p) && db.nfree == old(db.nfree) + Pow2(page.order)
              else View() == Change(old(View()), p, page.(use := Deleted)) && db.nfree == old(db.nfree)
      ensures if old(pages[p]).refcnt == 0 then pages == old(pages) - {p} && p !in modified && p !in standby
              else pages == old(pages)[p := old(pages[p]).(use := Deleted)]
    {
      hide Booked, UsedBlocks, Matches, Pow2, PageFrameDatabase.Valid;
      BookedPage(View(), p);
      if pages[p].refcnt == 0 {
        DeleteInactive(p);
        OnQueues(View(), p);
      } else {
        var npages := Pow2(pages[p].order);
        var page := pages[p].(use := Deleted);
        ChangeKeeps(View(), p, page);
        MatchesChange(UsedBlocks(db.layout), pages, p, page);
        stats := stats[StatOf(pages[p].use) := stats[StatOf(pages[p].use)] - npages];
        stats := stats[NDeleted := stats[NDeleted] + npages];
        pages := pages[p := page];
      }
    }

    /** A page's dirtiness is recorded while somebody refers to it. */
    method SetDirty(p: Pfn, dirty: bool)
      requires Valid() && p in pages && 0 < pages[p].refcnt
      modifies this
      ensures Valid() && View() == Change(old(View()), p, old(pages[p]).(dirty := dirty))
    {
      hide Booked, UsedBlocks, Matches, Pow2, PageFrameDatabase.Valid;
      BookedPage(View(), p);
      var page := pages[p].(dirty := dirty);
      ChangeKeeps(View(), p, page);
      MatchesChange(UsedBlocks(db.layout), pages, p, page);
      RestatSame(stats, StatOf(page.use), Pow2(page.order));
      pages := pages[p := page];
    }

    /** The fork code turns a private page into a fork page or back (`convert_page`,
        `vmp_do_fork_dirty_fault`), whichever queue it is on. */
    method ConvertUse(p: Pfn, use: Use)
      requires Valid() && p in pages && Pageable(pages[p].use) && Pageable(use)
      modifies this
      ensures Valid() && View() == Change(old(View()), p, old(pages[p]).(use := use))
    {
      hide Booked, UsedBlocks, Matches, Pow2, PageFrameDatabase.Valid;
      BookedPage(View(), p);
      var page := pages[p].(use := use);
      ChangeKeeps(View(), p, page);
      MatchesChange(UsedBlocks(db.layout), pages, p, page);
      var npages := Pow2(pages[p].order);
      stats := stats[StatOf(pages[p].use) := stats[StatOf(pages[p].use)] - npages];
      stats := stats[StatOf(use) := stats[StatOf(use)] + npages];
      pages := pages[p := page];
    }

    /** Take the first standby page away from its owner (`vmp_page_steal`) and free it. */
    method StealFirst()
      requires Valid() && standby != []
      modifies this, db
      ensures Valid() && View() == Drop(old(View()), old(standby[0])) && db.nfree == old(db.nfree) + 1
      ensures old(standby[0]) in old(pages) && old(nstandby) > 0
    {
      hide Booked, UsedBlocks, Matches, Pow2, PageFrameDatabase.Valid;
      var p := standby[0];
      StandbyFirst(View());
      BookedPage(View(), p);
      var page := pages[p].(refcnt := 1);
      ChangeKeeps(View(), p, page);
      MatchesChange(UsedBlocks(db.layout), pages, p, page);
      RestatSame(stats, StatOf(page.use), Pow2(page.order));
      standby := standby[1..];
      pages := pages[p := page];
      nactive := nactive + 1;
      nstandby := nstandby - 1;
      assert View() == Change(old(View()), p, page);
      Delete(p);
      var ok := Release(p);
      StealIsDrop(old(View()), p);
    }

    /** The head of `vmp_pages_alloc_locked`: refuse what need not be had when pages are
        very low, and steal a page when free ones are low. */
    method MakeRoom(must: bool) returns (ok: bool)
      requires Valid()
      modifies this, db
      ensures Valid() && ok == (must || AVAIL_VERY_LOW <= old(db.nfree) + old(nstandby))
      ensures ok ==> View() == AfterSteal(old(View()), old(db.nfree))
      ensures !ok ==> View() == old(View()) && db.nfree == old(db.nfree)
      ensures ok ==> 0 <= db.nfree && (0 < db.nfree <==> 0 < old(db.nfree) || old(standby) != [])
    {
      hide Booked, UsedBlocks, Matches, Pow2, PageFrameDatabase.Valid, FreeAt;
      StandbyCount(View());
      FreeCount(db);
      if db.nfree + nstandby < AVAIL_VERY_LOW && !must {
        return false;
      } else if db.nfree < FREE_LOW {
        if standby == [] && !must {
          return false;
        } else if standby != [] {
          StealFirst();
        }
      }
      ok := true;
    }

    /** The rest of it: a block from the buddy allocator, entered as in use. */
    method TakeBlock(order: nat, use: Use) returns (r: Option<Pfn>)
      requires Valid() && order < BUDDY_ORDERS && (0 < order ==> !Pageable(use)) && !use.Deleted?
      modifies this, db
      ensures Valid()
      ensures r.Some? ==> r.value !in old(pages) && View() == Add(old(View()), r.value, order, use) && 0 < old(db.nfree)
      ensures r.None? ==> View() == old(View()) && (order == 0 ==> old(db.nfree) <= 0)
    {
      hide Booked, UsedBlocks, Matches, Pow2, PageFrameDatabase.Valid, Keeps, Extent, Joined, Dropped, FreePages,
        FreeAt;
      ghost var g, l := View(), db.layout;
      DbTiles(db);
      FreeCount(db);
      BookedStats(g);
      var block := db.AllocPages(order);
      if block.None? {
        return None;
      }
      FreeCount(db);
      var p := block.value;
      FreshBlock(l, pages, p, order);
      AddKeeps(g, p, order, use);
      MatchesAdd(UsedBlocks(l), pages, p, Page(order, use, 1, false));
      var npages := Pow2(order);
      pages := pages[p := Page(order, use, 1, false)];
      nactive := nactive + npages;
      stats := stats[StatOf(use) := stats[StatOf(use)] + npages];
      r := Some(p);
    }

    /** `vmp_pages_alloc_locked`. Multi-page blocks are not for pageable use. A
        single page that need not be had is refused exactly when free and standby pages
        are very low, and otherwise always had; one that must be had is missing only
        when nothing is free and nothing can be stolen. */
    method Alloc(order: nat, use: Use, must: bool) returns (r: AllocResult)
      requires Valid() && order < BUDDY_ORDERS && (0 < order ==> !Pageable(use)) && !use.Deleted?
      modifies this, db
      ensures Valid()
      ensures r.Shortage? <==> !must && old(db.nfree) + old(nstandby) < AVAIL_VERY_LOW
      ensures order == 0 ==> (r.OutOfPages? <==> must && old(db.nfree) == 0 && old(standby) == [])
      ensures r.Shortage? ==> View() == old(View()) && db.nfree == old(db.nfree)
      ensures r.Got? ==>
                var g := AfterSteal(old(View()), old(db.nfree));
                r.page !in g.pages && (BookedStats(old(View())); View() == Add(g, r.page, order, use))
    {
      hide Booked, UsedBlocks, Matches, Pow2, PageFrameDatabase.Valid, FreeAt, AfterSteal;
      StandbyCount(View());
      FreeCount(db);
      var ok := MakeRoom(must);
      if !ok {
        return Shortage;
      }
      BookedStats(View());
      var block := TakeBlock(order, use);
      if block.None? {
        return OutOfPages;
      }
      r := Got(block.value);
    }
  }

  /** The ledger after the allocator has made room, if it had to. */
  ghost function AfterSteal(g: Ledger, nfree: int): (r: Ledger)
    requires Booked(g)
    ensures forall st :: st in r.stats
  {
    if nfree < FREE_LOW && g.standby != [] then StandbyFirst(g); Drop(g, g.standby[0]) else g
  }

  lemma {:induction false} StandbyFirst(g: Ledger)
    requires Booked(g) && g.standby != []
    ensures g.standby[0] in g.pages && IsStandby(g.pages[g.standby[0]]) && g.pages[g.standby[0]].order == 0
    ensures Without(g.standby, g.standby[0]) == g.standby[1..] && Pow2(0) == 1 && 0 < g.nstandby
    ensures forall st :: st in g.stats
  {
    var p := g.standby[0];
    assert p in g.standby;
    WithoutFirst(g.standby);
    TotalAt(g.pages, p, IsStandby);
  }

  lemma {:induction false} WithoutFirst(q: seq<Pfn>)
    requires q != [] && Distinct(q)
    ensures Without(q, q[0]) == q[1..]
  {
    WithoutAbsent(q[1..], q[0]);
  }

  /** Taking a reference to a standby page, deleting it and letting go frees it. */
  lemma {:induction false} StealIsDrop(g: Ledger, p: Pfn)
    requires Booked(g) && p in g.pages && IsStandby(g.pages[p]) && (forall st :: st in g.stats)
    ensures var g1 := Change(g, p, g.pages[p].(refcnt := 1));
            var g2 := Change(g1, p, g1.pages[p].(use := Deleted));
            Drop(g2, p) == Drop(g, p)
  {
    hide Booked, Pow2, Without;
    var g1 := Change(g, p, g.pages[p].(refcnt := 1));
    var g2 := Change(g1, p, g1.pages[p].(use := Deleted));
    assert g2.pages - {p} == g.pages - {p};
    assert Drop(g2, p).stats == Drop(g, p).stats;
  }

  lemma {:induction false} TotalNone(pages: map<Pfn, Page>, sel: Page -> bool)
    requires forall p :: p in pages ==> !sel(pages[p])
    ensures Total(pages, sel) == 0
    decreases |pages|
  {
    if pages != map[] {
      var p :| p in pages;
      TotalAt(pages, p, sel);
      TotalNone(pages - {p}, sel);
    }
  }

  lemma {:induction false} StandbyCount(g: Ledger)
    requires Booked(g)
    ensures 0 <= g.nstandby && (g.nstandby == 0 <==> g.standby == [])
  {
    if g.standby == [] {
      TotalNone(g.pages, IsStandby);
    } else {
      StandbyFirst(g);
    }
  }

  lemma {:induction false} BookedStats(g: Ledger)
    requires Booked(g)
    ensures forall st :: st in g.stats
  {
  }

  /** Some frame is free exactly when some block is. */
  lemma {:induction false} FreeCount(db: PageFrameDatabase)
    requires db.Valid()
    ensures 0 <= db.nfree && (0 < db.nfree <==> exists h, k :: FreeAt(db.layout, h, k))
  {
    var l := db.layout;
    TilesParts(l);
    if 0 < db.nfree {
      var p :| p in FreePages(l);
      assert FreeAt(l, l.head[p], l.blocks[l.head[p]].order);
    }
    if h, k :| FreeAt(l, h, k) {
      OwnHead(l, h);
      assert h in FreePages(l);
    }
  }

  lemma {:induction false} DbTiles(db: PageFrameDatabase)
    requires db.Valid()
    ensures Exclusive(db.layout)
  {
  }

  lemma {:induction false} FreshBlock(l: Layout, pages: map<Pfn, Page>, p: Pfn, order: nat)
    requires Exclusive(l) && Matches(UsedBlocks(l), pages) && Extent(p, Pow2(order)) <= FreePages(l)
    ensures p !in pages
  {
    ExtentHas(p, Pow2(order));
    OwnHead(l, p);
    assert p in FreePages(l);
  }

  function ZeroStats(): (m: map<Stat, int>)
    ensures forall st :: st in m && m[st] == 0
  {
    var m := map[NDeleted := 0, NAnonShare := 0, NAnonPrivate := 0, NAnonFork := 0, NFileShared := 0, NKWired := 0,
                 NProcPgtable := 0, NProtoPgtable := 0];
    assert forall st: Stat :: st in m && m[st] == 0 by {
      forall st: Stat ensures st in m && m[st] == 0 {
        assert st == NDeleted || st == NAnonShare || st == NAnonPrivate || st == NAnonFork || st == NFileShared
            || st == NKWired || st == NProcPgtable || st == NProtoPgtable;
      }
    }
    m
  }

  lemma {:induction false} RestatSame(stats: map<Stat, int>, st: Stat, n: int)
    requires st in stats
    ensures Restat(Restat(stats, st, -n), st, n) == stats
  {
  }

  lemma {:induction false} BookedPage(g: Ledger, p: Pfn)
    requires Booked(g) && p in g.pages
    ensures PageOk(g.pages[p]) && forall st :: st in g.stats
  {
  }

  lemma {:induction false} OnQueues(g: Ledger, p: Pfn)
    requires Booked(g)
    ensures p in g.modified <==> p in g.pages && g.pages[p].refcnt == 0 && g.pages[p].dirty
    ensures p in g.standby <==> p in g.pages && g.pages[p].refcnt == 0 && !g.pages[p].dirty
  {
    hide Total;
  }

  lemma {:induction false} EmptyBooks(g: Ledger)
    requires g.pages == map[] && g.modified == [] && g.standby == [] && g.nactive == 0 && g.nmodified == 0
    requires g.nstandby == 0
    requires forall st :: st in g.stats && g.stats[st] == 0
    ensures Booked(g)
  {
  }

  lemma {:induction false} FreeOrWired(l: Layout, p: Pfn)
    requires Covers(l) && AtRest(l) && forall h :: h in l.blocks ==> !l.blocks[h].kind.Allocated?
    ensures p in l.head <==> p in FreePages(l) || p in WiredPages(l)
    ensures !(p in FreePages(l) && p in WiredPages(l))
  {
  }

  /** At boot every frame is free or wired. */
  lemma {:induction false} BootBalance(l: Layout, frames: map<Pfn, Frame>, queues: seq<seq<Pfn>>)
    requires Good(l, frames, queues) && AtRest(l) && forall h :: h in l.blocks ==> !l.blocks[h].kind.Allocated?
    ensures |l.head.Keys| == |FreePages(l)| + |WiredPages(l)| && Matches(UsedBlocks(l), map[])
  {
    TilesParts(l);
    hide Good, Covers, Exclusive, Shapes, RootsOk, FreePages, WiredPages, AtRest;
    forall p
      ensures p in l.head.Keys <==> p in FreePages(l) || p in WiredPages(l)
      ensures !(p in FreePages(l) && p in WiredPages(l))
    {
      FreeOrWired(l, p);
    }
    UnionCard(l.head.Keys, FreePages(l), WiredPages(l));
  }

  lemma {:induction false} UnionCard(u: set<Pfn>, a: set<Pfn>, b: set<Pfn>)
    requires forall p :: p in u <==> p in a || p in b
    requires forall p :: !(p in a && p in b)
    ensures |u| == |a| + |b|
  {
    assert u == a + b && a !! b;
  }

  /** What admission rests on: when pages are not very low but free ones are low, a
      standby page is there to steal. */
  lemma {:induction false} Admission(g: Ledger, nfree: int)
    requires Booked(g) && AVAIL_VERY_LOW <= nfree + g.nstandby
    ensures nfree < FREE_LOW ==> g.standby != []
    ensures 0 < nfree || g.standby != []
  {
    StandbyCount(g);
  }

  /** The two ledgers of the page-frame database, in every state the operations reach. */
  lemma {:induction false} LedgersAgree(m: ResidentPageManager)
    requires m.Valid()
    ensures m.db.ntotal == m.db.npwired + m.db.nfree + m.nactive + m.nmodified + m.nstandby
    ensures (BookedStats(m.View()); ByUse(m.stats) == m.nactive + m.nmodified + m.nstandby)
    ensures forall p :: p in m.pages ==>
              && (p in m.modified <==> m.pages[p].refcnt == 0 && m.pages[p].dirty)
              && (p in m.standby <==> m.pages[p].refcnt == 0 && !m.pages[p].dirty)
  {
    TwoLedgers(m.View());
    hide PageFrameDatabase.Valid, Matches, Total;
  }

  // ------------------------------------------------------------- counters and frames

  /** The frames of the allocated blocks that satisfy `sel`. */
  ghost function FramesOf(l: Layout, pages: map<Pfn, Page>, sel: Page -> bool): set<Pfn> {
    set f | f in l.head && l.head[f] in pages && sel(pages[l.head[f]])
  }

  lemma {:induction false} FramesSplit(l: Layout, pages: map<Pfn, Page>, sel: Page -> bool, p: Pfn, e: set<Pfn>)
    requires IsExtent(l, p, e) && p in pages
    ensures FramesOf(l, pages - {p}, sel) !! e
    ensures FramesOf(l, pages, sel) == FramesOf(l, pages - {p}, sel) + if sel(pages[p]) then e else {}
  {
  }

  lemma {:induction false} FramesApart(l: Layout, pages: map<Pfn, Page>, sel: Page -> bool, p: Pfn)
    requires Covers(l) && Exclusive(l) && p in pages && p in l.blocks && l.blocks[p].order == pages[p].order
    ensures |FramesOf(l, pages, sel)| == Weight(pages[p], sel) + |FramesOf(l, pages - {p}, sel)|
  {
    hide Covers, Exclusive, Extent, Pow2, IsExtent, FramesOf;
    var e := Extent(p, Pow2(pages[p].order));
    ExtentIs(l, p);
    ExtentHas(p, Pow2(pages[p].order));
    FramesSplit(l, pages, sel, p, e);
  }

  lemma {:induction false} TotalFrames(l: Layout, pages: map<Pfn, Page>, sel: Page -> bool)
    requires Covers(l) && Exclusive(l)
    requires forall p :: p in pages ==> p in l.blocks && l.blocks[p].order == pages[p].order
    ensures Total(pages, sel) == |FramesOf(l, pages, sel)|
    decreases |pages|
  {
    hide Covers, Exclusive;
    if pages == map[] {
      assert FramesOf(l, pages, sel) == {};
    } else {
      var p :| p in pages;
      TotalAt(pages, p, sel);
      FramesApart(l, pages, sel, p);
      TotalFrames(l, pages - {p}, sel);
    }
  }

  /** The frames of the allocated blocks in one of the uses. */
  ghost function FramesUsed(m: ResidentPageManager, uses: set<Use>): set<Pfn>
    reads m, m.db
  {
    set f | f in m.db.layout.head && m.db.layout.head[f] in m.pages && m.pages[m.db.layout.head[f]].use in uses
  }

  /** A total is the number of frames it is over. */
  lemma {:induction false} ManagerTotal(m: ResidentPageManager, sel: Page -> bool, frames: set<Pfn>)
    requires m.Valid() && frames == FramesOf(m.db.layout, m.pages, sel)
    ensures Total(m.pages, sel) == |frames|
  {
    var l := m.db.layout;
    TilesParts(l);
    forall p | p in m.pages ensures p in l.blocks && l.blocks[p].order == m.pages[p].order {
      MatchedBlock(l, m.pages, p);
    }
    hide Good, Covers, Exclusive, Shapes, RootsOk, Matches, Total, FramesOf;
    TotalFrames(l, m.pages, sel);
  }

  lemma {:induction false} StatFrames(m: ResidentPageManager, st: Stat, uses: set<Use>)
    requires m.Valid() && forall use :: StatOf(use) == st <==> use in uses
    ensures st in m.stats && m.stats[st] == |FramesUsed(m, uses)|
  {
    hide Total, Matches, PageFrameDatabase.Valid;
    assert FramesUsed(m, uses) == FramesOf(m.db.layout, m.pages, Counted(st));
    ManagerTotal(m, Counted(st), FramesUsed(m, uses));
  }

  /** Each counter by use is the number of frames in the uses it is named for. */
  lemma {:induction false} CountersByUse(m: ResidentPageManager)
    requires m.Valid()
    ensures NDeleted in m.stats && m.stats[NDeleted] == |FramesUsed(m, {Deleted})|
    ensures NKWired in m.stats && m.stats[NKWired] == |FramesUsed(m, {KWired})|
    ensures NAnonShare in m.stats && m.stats[NAnonShare] == |FramesUsed(m, {AnonShared})|
    ensures NAnonPrivate in m.stats && m.stats[NAnonPrivate] == |FramesUsed(m, {AnonPrivate})|
    ensures NAnonFork in m.stats && m.stats[NAnonFork] == |FramesUsed(m, {AnonFork})|
    ensures NFileShared in m.stats && m.stats[NFileShared] == |FramesUsed(m, {FileShared})|
    ensures NProcPgtable in m.stats && m.stats[NProcPgtable] == |FramesUsed(m, {PML1, PML2, PML3, PML4})|
    ensures NProtoPgtable in m.stats && m.stats[NProtoPgtable] == |FramesUsed(m, {VPML1, VPML2, VPML3, VPML4})|
  {
    hide ResidentPageManager.Valid, FramesUsed;
    StatFrames(m, NDeleted, {Deleted});
    StatFrames(m, NKWired, {KWired});
    StatFrames(m, NAnonShare, {AnonShared});
    StatFrames(m, NAnonPrivate, {AnonPrivate});
    StatFrames(m, NAnonFork, {AnonFork});
    StatFrames(m, NFileShared, {FileShared});
    StatFrames(m, NProcPgtable, {PML1, PML2, PML3, PML4});
    StatFrames(m, NProtoPgtable, {VPML1, VPML2, VPML3, VPML4});
  }

  /** The frames of the allocated blocks that are referred to or not, dirty or not. */
  ghost function FramesIn(m: ResidentPageManager, active: bool, dirty: set<bool>): set<Pfn>
    reads m, m.db
  {
    set f | f in m.db.layout.head && m.db.layout.head[f] in m.pages &&
      (0 < m.pages[m.db.layout.head[f]].refcnt) == active && m.pages[m.db.layout.head[f]].dirty in dirty
  }

  /** The counters by state are the numbers of frames referred to, unreferenced and dirty,
      and unreferenced and clean. */
  lemma {:induction false} CountersByState(m: ResidentPageManager)
    requires m.Valid()
    ensures m.nactive == |FramesIn(m, true, {true, false})|
    ensures m.nmodified == |FramesIn(m, false, {true})|
    ensures m.nstandby == |FramesIn(m, false, {false})|
  {
    hide Total, Matches, PageFrameDatabase.Valid;
    StateFrames(m);
    hide FramesIn, FramesOf;
    ManagerTotal(m, IsActive, FramesIn(m, true, {true, false}));
    ManagerTotal(m, IsModified, FramesIn(m, false, {true}));
    ManagerTotal(m, IsStandby, FramesIn(m, false, {false}));
  }

  lemma {:induction false} StateFrames(m: ResidentPageManager)
    ensures FramesIn(m, true, {true, false}) == FramesOf(m.db.layout, m.pages, IsActive)
    ensures FramesIn(m, false, {true}) == FramesOf(m.db.layout, m.pages, IsModified)
    ensures FramesIn(m, false, {false}) == FramesOf(m.db.layout, m.pages, IsStandby)
  {
  }
}
