/**
  The fault handler and `vm_fork` as the kernel writes them, changing entries, frame
  records, fork pages and counters in place. Each method is proved to make the
  step of `ForkCow` with the same meaning.
 */
module ForkMachine {
  import opened Options
  import opened ForkCow
  import opened ForkRefinement

  /** What the fault handler follows from an entry is there. */
  lemma {:induction false} FaultFacts(s: State, slot: Slot)
    requires Inv(s) && slot.pid in s.procs
    ensures match PteAt(s, slot)
            case Zero => true
            case Trans(pfn) => pfn in s.pages
            case ForkPtr(fid) => fid in s.forks && s.forks[fid].pfn in s.pages
            case Valid(pfn, w) =>
              && pfn in s.pages
              && (s.pages[pfn].use.AnonFork? ==>
                    && s.pages[pfn].owner.OfFork? && s.pages[pfn].owner.fid in s.forks
                    && 0 < s.forks[s.pages[pfn].owner.fid].refcount)
  {
    CopyableForks(s);
  }

  class AddressSpaces {
    var pages: map<Pfn, Page>
    var forks: map<Fid, ForkPage>
    var ptes: map<Slot, Pte>
    var procs: map<Pid, Proc>
    var nanonprivate: int
    var nanonfork: int

    function View(): State
      reads this
    {
      State(pages, forks, ptes, procs, nanonprivate, nanonfork)
    }

    constructor (processes: map<Pid, map<Vpn, bool>>)
      ensures Init(View()) && Inv(View())
      ensures procs.Keys == processes.Keys && forall p :: p in processes ==> procs[p].vads == processes[p]
    {
      pages, forks, ptes := map[], map[], map[];
      procs := map p | p in processes :: Proc(processes[p], 0);
      nanonprivate, nanonfork := 0, 0;
      new;
      InitGood(View());
    }

    /** `vmp_page_alloc_locked` for a private page: the frame allocator gave `pfn`. */
    method TakeFrame(pfn: Pfn, bytes: Bytes)
      modifies this`pages, this`nanonprivate
      ensures pages == old(pages)[pfn := Page(AnonPrivate, OfProcess(0), SlotPte(Slot(0, 0)), 1, false, bytes)]
      ensures nanonprivate == old(nanonprivate) + 1
    {
      pages := pages[pfn := Page(AnonPrivate, OfProcess(0), SlotPte(Slot(0, 0)), 1, false, bytes)];
      nanonprivate := nanonprivate + 1;
    }

    /** Record whose frame this is and which entry maps it. */
    method SetOwner(pfn: Pfn, slot: Slot)
      requires pfn in pages
      modifies this`pages
      ensures pages == old(pages)[pfn := old(pages)[pfn].(owner := OfProcess(slot.pid), referent := SlotPte(slot))]
    {
      pages := pages[pfn := pages[pfn].(owner := OfProcess(slot.pid), referent := SlotPte(slot))];
    }

    method ForkDirtyFault(slot: Slot, pfn: Pfn, frame: Option<Pfn>) returns (r: FaultResult)
      requires slot.pid in procs && pfn in pages && pages[pfn].owner.OfFork?
      requires pages[pfn].owner.fid in forks && 0 < forks[pages[pfn].owner.fid].refcount
      requires frame.Some? ==> frame.value !in pages
      modifies this
      ensures var s := old(View());
              var fid := s.pages[pfn].owner.fid;
              (View(), r) ==
              if s.forks[fid].refcount == 1 then (TakeOver(s, slot, pfn, fid), Ok)
              else if frame.None? then (s, PageShortage)
              else (CopyFork(s, slot, pfn, fid, frame.value), Ok)
    {
      var fid := pages[pfn].owner.fid;
      var priv := pfn;
      if forks[fid].refcount == 1 {
        ptes := ptes[slot := Valid(pfn, true)];
        pages := pages[pfn := pages[pfn].(use := AnonPrivate)];
        nanonprivate := nanonprivate + 1;
      } else {
        if frame.None? {
          return PageShortage;
        }
        priv := frame.value;
        TakeFrame(priv, pages[pfn].bytes);
        ptes := ptes[slot := Valid(priv, true)];
      }
      SetOwner(priv, slot);
      procs := procs[slot.pid := procs[slot.pid].(nAnon := procs[slot.pid].nAnon + 1)];
      forks := forks[fid := forks[fid].(refcount := forks[fid].refcount - 1)];
      if forks[fid].refcount == 0 {
        nanonfork := nanonfork - 1;
        forks := forks - {fid};
      }
      r := Ok;
      assert forks == if old(forks)[fid].refcount == 1 then old(forks) - {fid} else forks;
      assert pages == old(pages)[priv := pages[priv]];
    }

    method DoFault(slot: Slot, write: bool, frame: Option<Pfn>) returns (r: FaultResult)
      requires Inv(View()) && (frame.Some? ==> frame.value !in pages)
      modifies this
      ensures (View(), r) == Fault(old(View()), slot, write, frame)
      ensures r.Ok? <==> old(Permitted(View(), slot, write)) && (frame.Some? || !old(NeedsFrame(View(), slot, write)))
    {
      hide Inv, NeedsFrame, Permitted;
      FaultAnswer(View(), slot, write, frame);
      if slot.pid !in procs || slot.vpn !in procs[slot.pid].vads {
        return Failure;
      }
      FaultFacts(View(), slot);
      if write && !procs[slot.pid].vads[slot.vpn] {
        return Fatal;
      }
      r := Ok;
      if slot !in ptes || ptes[slot].Zero? {
        if frame.None? {
          return PageShortage;
        }
        TakeFrame(frame.value, ZeroPage());
        SetOwner(frame.value, slot);
        assert pages == old(pages)[frame.value := pages[frame.value]];
        ptes := ptes[slot := Valid(frame.value, write)];
        procs := procs[slot.pid := procs[slot.pid].(nAnon := procs[slot.pid].nAnon + 1)];
      } else if ptes[slot].Trans? {
        var pfn := ptes[slot].pfn;
        pages := pages[pfn := pages[pfn].(refcnt := pages[pfn].refcnt + 1)];
        ptes := ptes[slot := Valid(pfn, write)];
      } else if ptes[slot].ForkPtr? {
        var pfn := forks[ptes[slot].fid].pfn;
        pages := pages[pfn := pages[pfn].(refcnt := pages[pfn].refcnt + 1)];
        ptes := ptes[slot := Valid(pfn, false)];
      } else if write && !ptes[slot].writeable {
        if pages[ptes[slot].pfn].use.AnonFork? {
          r := ForkDirtyFault(slot, ptes[slot].pfn, frame);
        } else {
          ptes := ptes[slot := Valid(ptes[slot].pfn, true)];
        }
      }
    }

    /** `convert_private_to_fork` with the next preallocated fork page. */
    method ConvertPrivateToFork(slot: Slot, pfn: Pfn, fid: Fid)
      requires slot in ptes && pfn in pages && (ptes[slot].Valid? || ptes[slot].Trans?) && ptes[slot].pfn == pfn
      modifies this
      ensures View() == ConvertPrivate(old(View()), slot, pfn, fid)
    {
      pages := pages[pfn := pages[pfn].(use := AnonFork, owner := OfFork(fid), referent := ForkPte(fid))];
      nanonprivate := nanonprivate - 1;
      nanonfork := nanonfork + 1;
      if ptes[slot].Valid? {
        ptes := ptes[slot := Valid(pfn, false)];
      } else {
        ptes := ptes[slot := ForkPtr(fid)];
      }
      forks := forks[fid := ForkPage(pfn, 2)];
    }

    /** `cow_pages` over the parent's pages, using up `fids`; stops with `ok` false
        where the kernel's assertion about the supply would fail. */
    method CowPagesOf(parent: Pid, child: Pid, vpns: seq<Vpn>, fids: seq<Fid>) returns (ok: bool, used: nat)
      modifies this
      ensures used <= |fids|
      ensures var r := CowPages(old(View()), parent, child, vpns, fids);
              ok == r.Forked? && (ok ==> View() == r.s && fids[used..] == r.fids)
    {
      hide CowPage;
      used := 0;
      ok := true;
      var i := 0;
      ghost var want := CowPages(View(), parent, child, vpns, fids);
      while i < |vpns|
        invariant i <= |vpns| && used <= |fids|
        invariant want == CowPages(View(), parent, child, vpns[i..], fids[used..])
      {
        assert vpns[i..][0] == vpns[i] && vpns[i..][1..] == vpns[i + 1..];
        ok, used := CowPageOf(parent, child, vpns[i], fids, used);
        if !ok {
          return;
        }
        i := i + 1;
      }
    }

    /** One page: a private page becomes a fork page, a fork page is shared on. */
    method CowPageOf(parent: Pid, child: Pid, vpn: Vpn, fids: seq<Fid>, before: nat) returns (ok: bool, used: nat)
      requires before <= |fids|
      modifies this
      ensures used <= |fids|
      ensures var r := CowPage(old(View()), parent, child, vpn, fids[before..]);
              ok == r.Forked? && (ok ==> View() == r.s && fids[used..] == r.fids)
    {
      used := before;
      var p, c := Slot(parent, vpn), Slot(child, vpn);
      var pte := if p in ptes then ptes[p] else Zero;
      if (pte.Trans? || (pte.Valid? && pte.pfn in pages && pages[pte.pfn].use.AnonPrivate?)) && pte.pfn in pages {
        if used == |fids| {
          return false, used;
        }
        assert fids[used..][0] == fids[used] && fids[used..][1..] == fids[used + 1..];
        ConvertPrivateToFork(p, pte.pfn, fids[used]);
        ptes := ptes[c := ForkPtr(fids[used])];
        used := used + 1;
      } else if pte.ForkPtr? && pte.fid in forks {
        forks := forks[pte.fid := forks[pte.fid].(refcount := forks[pte.fid].refcount + 1)];
        ptes := ptes[c := ForkPtr(pte.fid)];
      } else if pte.Valid? && pte.pfn in pages && pages[pte.pfn].use.AnonFork? && pages[pte.pfn].owner.OfFork?
             && pages[pte.pfn].owner.fid in forks {
        var fid := pages[pte.pfn].owner.fid;
        forks := forks[fid := forks[fid].(refcount := forks[fid].refcount + 1)];
        ptes := ptes[c := ForkPtr(fid)];
      }
      ok := true;
    }

    /** `vm_fork`: no assertion fails, the child gets the parent's memory, and what
        anybody else reads stays the same. */
    method ForkProcess(parent: Pid, child: Pid, vpns: seq<Vpn>, fids: seq<Fid>) returns (ok: bool)
      requires Inv(View()) && MayFork(View(), parent, child, vpns, fids)
      modifies this
      ensures ok && Inv(View()) && Forked(View(), []) == Fork(old(View()), parent, child, vpns, fids)
      ensures forall v :: Mem(View(), Slot(child, v)) == Mem(old(View()), Slot(parent, v))
      ensures forall x: Slot :: x.pid != child ==> Mem(View(), x) == Mem(old(View()), x)
    {
      ghost var s := View();
      assert parent in s.procs;
      hide Inv, MayFork, CowPages, Mem;
      ForkKeeps(s, parent, child, vpns, fids);
      procs := procs[child := Proc(procs[parent].vads, 0)];
      var used;
      ok, used := CowPagesOf(parent, child, vpns, fids);
      ok := ok && used == |fids|;
      procs := procs[parent := procs[parent].(nAnon := 0)];
    }

    /** `vmp_page_evict` on an anonymous page. */
    method EvictPage(slot: Slot)
      requires Inv(View()) && PteAt(View(), slot).Valid?
      modifies this
      ensures Inv(View()) && (MappedCounted(old(View()), slot); View() == Evict(old(View()), slot))
      ensures forall x :: Mem(View(), x) == Mem(old(View()), x)
      ensures slot in old(ptes) && slot in ptes && !ptes[slot].Valid?
      ensures forall x :: x != slot ==> PteAt(View(), x) == PteAt(old(View()), x)
      ensures var pfn := old(ptes)[slot].pfn;
              && pfn in old(pages) && pages.Keys == old(pages).Keys && pages[pfn].refcnt == old(pages)[pfn].refcnt - 1
              && pages[pfn].dirty == (old(pages)[pfn].dirty || old(ptes)[slot].writeable)
    {
      hide Inv, Mem;
      MappedCounted(View(), slot);
      EvictQuiet(View(), slot);
      var Valid(pfn, dirty) := ptes[slot];
      pages := pages[pfn := pages[pfn].(dirty := pages[pfn].dirty || dirty)];
      ptes := ptes[slot := if pages[pfn].use.AnonPrivate? then Trans(pfn) else ForkPtr(pages[pfn].owner.fid)];
      pages := pages[pfn := pages[pfn].(refcnt := pages[pfn].refcnt - 1)];
      assert pages == old(pages)[pfn := pages[pfn]];
    }
  }
}
