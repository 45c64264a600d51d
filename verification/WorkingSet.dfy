/**
  The working-set list: an array of entries whose free ones are chained through their
  own page-number field, and a small hash table that holds only some of the shared
  entries, found by at most four probes.
 */
module WorkingSet {
  import opened Queues

  const NIL := -1
  const PROBES := 4
  const EXPANSION := 16

  /** An entry; `vpfn` is the page number, or the next free index when it is free. */
  datatype Wse = Wse(vpfn: int, hashed: bool, shared: bool, free: bool)

  // ------------------------------------------------------------------ the free chain

  ghost function NextIn(chain: seq<int>, k: int): int {
    if 0 <= k < |chain| then chain[k] else NIL
  }

  /** `chain` lists the free entries, each once, in the order of the links. */
  ghost predicate ChainOk(nodes: seq<Wse>, freelist: int, chain: seq<int>) {
    && Distinct(chain) && freelist == NextIn(chain, 0)
    && (forall i :: i in chain <==> 0 <= i < |nodes| && nodes[i].free)
    && (forall k :: 0 <= k < |chain| ==> 0 <= chain[k] < |nodes| && nodes[chain[k]].vpfn == NextIn(chain, k + 1))
  }

  lemma {:induction false} PopChain(nodes: seq<Wse>, freelist: int, chain: seq<int>, e: Wse)
    requires ChainOk(nodes, freelist, chain) && chain != [] && !e.free
    ensures 0 <= freelist < |nodes| && nodes[freelist].free
    ensures ChainOk(nodes[freelist := e], nodes[freelist].vpfn, chain[1..])
  {
    TailOf(chain);
    assert chain[0] == freelist && freelist in chain;
    var c := chain[1..];
    forall k | 0 <= k < |c| ensures 0 <= c[k] < |nodes| && nodes[freelist := e][c[k]].vpfn == NextIn(c, k + 1) {
      assert c[k] == chain[k + 1] && c[k] in c;
    }
  }

  lemma {:induction false} PushChain(nodes: seq<Wse>, freelist: int, chain: seq<int>, i: int, e: Wse)
    requires ChainOk(nodes, freelist, chain) && 0 <= i < |nodes| && !nodes[i].free && e.free && e.vpfn == freelist
    ensures ChainOk(nodes[i := e], i, [i] + chain)
  {
    WithFirst(i, chain);
    var c := [i] + chain;
    forall k | 0 <= k < |c| ensures 0 <= c[k] < |nodes| && nodes[i := e][c[k]].vpfn == NextIn(c, k + 1) {
      if 0 < k {
        assert c[k] == chain[k - 1] && chain[k - 1] in chain;
      }
    }
  }

  /** Changing a live entry leaves the chain alone. */
  lemma {:induction false} LiveChain(nodes: seq<Wse>, freelist: int, chain: seq<int>, i: int, e: Wse)
    requires ChainOk(nodes, freelist, chain) && 0 <= i < |nodes| && !nodes[i].free && !e.free
    ensures ChainOk(nodes[i := e], freelist, chain)
  {
    forall k | 0 <= k < |chain| ensures nodes[i := e][chain[k]].vpfn == NextIn(chain, k + 1) {
      assert chain[k] in chain;
    }
  }

  // ------------------------------------------------------------------- the hash table

  /** The slot of the `k`-th probe for a page number. */
  function Probe(hash: int -> nat, size: nat, vpfn: int, k: nat): nat
    requires 1 < size
  {
    (hash(vpfn) % (size - 1) + k) % size
  }

  ghost predicate Probed(hash: int -> nat, table: seq<int>, vpfn: int, i: int)
    requires 1 < |table|
  {
    exists k :: 0 <= k < PROBES && table[Probe(hash, |table|, vpfn, k)] == i
  }

  /** A filled slot holds a hashed entry, and a hashed entry is within its probes. */
  ghost predicate HashOk(nodes: seq<Wse>, table: seq<int>, hash: int -> nat)
    requires 1 < |table|
  {
    && (forall j :: 0 <= j < |table| && table[j] != NIL ==> 0 <= table[j] < |nodes| && nodes[table[j]].hashed)
    && (forall i :: 0 <= i < |nodes| && nodes[i].hashed ==>
          !nodes[i].free && nodes[i].shared && Probed(hash, table, nodes[i].vpfn, i))
    && (forall i, j :: 0 <= i < j < |table| && table[i] != NIL ==> table[i] != table[j])
  }

  lemma {:induction false} ProbeIn(hash: int -> nat, size: nat, vpfn: int, k: nat)
    requires 1 < size
    ensures Probe(hash, size, vpfn, k) < size
  {
  }

  /** An entry that is not hashed may change, as long as it stays so. */
  lemma {:induction false} UnhashedChange(nodes: seq<Wse>, table: seq<int>, hash: int -> nat, i: int, e: Wse)
    requires 1 < |table| && HashOk(nodes, table, hash) && 0 <= i < |nodes| && !nodes[i].hashed && !e.hashed
    ensures HashOk(nodes[i := e], table, hash)
  {
    hide Probed;
  }

  /** Emptying the slot of an entry. */
  lemma {:induction false} Unhash(nodes: seq<Wse>, table: seq<int>, hash: int -> nat, i: int, j: int)
    requires 1 < |table| && HashOk(nodes, table, hash) && 0 <= i < |nodes| && 0 <= j < |table| && table[j] == i
    ensures HashOk(nodes[i := nodes[i].(hashed := false)], table[j := NIL], hash)
  {
    var nodes', table' := nodes[i := nodes[i].(hashed := false)], table[j := NIL];
    forall x | 0 <= x < |nodes'| && nodes'[x].hashed
      ensures !nodes'[x].free && nodes'[x].shared && Probed(hash, table', nodes'[x].vpfn, x)
    {
      assert Probed(hash, table, nodes[x].vpfn, x);
      var k :| 0 <= k < PROBES && table[Probe(hash, |table|, nodes[x].vpfn, k)] == x;
      assert table'[Probe(hash, |table'|, nodes[x].vpfn, k)] == x;
    }
    hide Probed;
  }

  /** Filling an empty slot within an entry's probes. */
  lemma {:induction false} Enhash(nodes: seq<Wse>, table: seq<int>, hash: int -> nat, i: int, k: nat)
    requires 1 < |table| && HashOk(nodes, table, hash) && 0 <= i < |nodes| && !nodes[i].hashed && !nodes[i].free
    requires nodes[i].shared
    requires k < PROBES && table[Probe(hash, |table|, nodes[i].vpfn, k)] == NIL
    ensures HashOk(nodes[i := nodes[i].(hashed := true)], table[Probe(hash, |table|, nodes[i].vpfn, k) := i], hash)
  {
    var j := Probe(hash, |table|, nodes[i].vpfn, k);
    var nodes', table' := nodes[i := nodes[i].(hashed := true)], table[j := i];
    forall x | 0 <= x < |nodes'| && nodes'[x].hashed
      ensures !nodes'[x].free && nodes'[x].shared && Probed(hash, table', nodes'[x].vpfn, x)
    {
      if x == i {
        assert table'[Probe(hash, |table'|, nodes'[x].vpfn, k)] == x;
      } else {
        assert Probed(hash, table, nodes[x].vpfn, x);
        var k1 :| 0 <= k1 < PROBES && table[Probe(hash, |table|, nodes[x].vpfn, k1)] == x;
        assert table'[Probe(hash, |table'|, nodes[x].vpfn, k1)] == x;
      }
    }
    hide Probed;
  }

  // --------------------------------------------------------------- what is resident

  /** No page number is in two live entries. */
  ghost predicate OnceEach(nodes: seq<Wse>) {
    forall i, j ::
      0 <= i < |nodes| && 0 <= j < |nodes| && !nodes[i].free && !nodes[j].free && nodes[i].vpfn == nodes[j].vpfn ==>
        i == j
  }

  ghost predicate LiveAt(nodes: seq<Wse>, i: int, vpfn: int) {
    0 <= i < |nodes| && !nodes[i].free && nodes[i].vpfn == vpfn
  }

  ghost predicate IsResident(nodes: seq<Wse>, vpfn: int) {
    exists i :: LiveAt(nodes, i, vpfn)
  }

  /** A live entry is taken over by a page, or a free one becomes it. Each page is there
      once after that exactly when no other entry had this one. */
  lemma {:induction false} Enters(nodes: seq<Wse>, i: int, e: Wse)
    requires OnceEach(nodes) && 0 <= i < |nodes| && !e.free
    ensures var nodes' := nodes[i := e];
            && (OnceEach(nodes') <==> !IsResident(nodes, e.vpfn) || LiveAt(nodes, i, e.vpfn))
            && (forall v :: IsResident(nodes', v) <==> v == e.vpfn || (IsResident(nodes, v) && !LiveAt(nodes, i, v)))
  {
    EntersOnce(nodes, i, e);
    hide OnceEach;
    var nodes' := nodes[i := e];
    forall v ensures IsResident(nodes', v) <==> v == e.vpfn || (IsResident(nodes, v) && !LiveAt(nodes, i, v)) {
      EntersResident(nodes, i, e, v);
    }
  }

  lemma {:induction false} SameEntry(nodes: seq<Wse>, i: int, j: int)
    requires OnceEach(nodes) && 0 <= i < |nodes| && 0 <= j < |nodes| && !nodes[i].free && !nodes[j].free
    ensures nodes[i].vpfn == nodes[j].vpfn ==> i == j
  {
  }

  lemma {:induction false} EntersOnce(nodes: seq<Wse>, i: int, e: Wse)
    requires OnceEach(nodes) && 0 <= i < |nodes| && !e.free
    ensures OnceEach(nodes[i := e]) <==> !IsResident(nodes, e.vpfn) || LiveAt(nodes, i, e.vpfn)
  {
    var nodes' := nodes[i := e];
    if OnceEach(nodes') && IsResident(nodes, e.vpfn) {
      var j :| LiveAt(nodes, j, e.vpfn);
      SameEntry(nodes', i, j);
    }
    if !IsResident(nodes, e.vpfn) || LiveAt(nodes, i, e.vpfn) {
      forall j | 0 <= j < |nodes| && j != i && !nodes[j].free ensures nodes[j].vpfn != e.vpfn {
        assert LiveAt(nodes, j, nodes[j].vpfn);
      }
    }
  }

  lemma {:induction false} EntersResident(nodes: seq<Wse>, i: int, e: Wse, v: int)
    requires OnceEach(nodes) && 0 <= i < |nodes| && !e.free
    ensures IsResident(nodes[i := e], v) <==> v == e.vpfn || (IsResident(nodes, v) && !LiveAt(nodes, i, v))
  {
    var nodes' := nodes[i := e];
    assert LiveAt(nodes', i, e.vpfn);
    if IsResident(nodes', v) {
      var j :| LiveAt(nodes', j, v);
      assert j == i || LiveAt(nodes, j, v);
    }
    if IsResident(nodes, v) && !LiveAt(nodes, i, v) {
      var j :| LiveAt(nodes, j, v);
      assert LiveAt(nodes', j, v);
    }
  }

  lemma {:induction false} Leaves(nodes: seq<Wse>, i: int, e: Wse)
    requires OnceEach(nodes) && 0 <= i < |nodes| && !nodes[i].free && e.free
    ensures var nodes' := nodes[i := e];
            && OnceEach(nodes') && (forall v :: IsResident(nodes', v) <==> IsResident(nodes, v) && v != nodes[i].vpfn)
  {
    var nodes' := nodes[i := e];
    forall v ensures IsResident(nodes', v) <==> IsResident(nodes, v) && v != nodes[i].vpfn {
      if IsResident(nodes', v) {
        var j :| LiveAt(nodes', j, v);
        assert LiveAt(nodes, j, v);
      }
      if IsResident(nodes, v) && v != nodes[i].vpfn {
        var j :| LiveAt(nodes, j, v);
        assert LiveAt(nodes', j, v);
      }
    }
  }

  /** Only the `hashed` mark of an entry changes. */
  lemma {:induction false} MarkOnly(nodes: seq<Wse>, i: int, h: bool)
    requires 0 <= i < |nodes|
    ensures var nodes' := nodes[i := nodes[i].(hashed := h)];
            && (OnceEach(nodes) <==> OnceEach(nodes')) && (forall v :: IsResident(nodes', v) <==> IsResident(nodes, v))
            && (forall freelist, chain :: ChainOk(nodes, freelist, chain) ==> ChainOk(nodes', freelist, chain))
  {
    var nodes' := nodes[i := nodes[i].(hashed := h)];
    assert forall j :: 0 <= j < |nodes| ==> nodes'[j].free == nodes[j].free && nodes'[j].vpfn == nodes[j].vpfn;
    if OnceEach(nodes') {
      forall a, b | 0 <= a < |nodes| && 0 <= b < |nodes| && !nodes[a].free && !nodes[b].free
                    && nodes[a].vpfn == nodes[b].vpfn
        ensures a == b
      {
        assert !nodes'[a].free && !nodes'[b].free && nodes'[a].vpfn == nodes'[b].vpfn;
      }
    }
    assert forall j, v :: LiveAt(nodes', j, v) <==> LiveAt(nodes, j, v);
    forall v ensures IsResident(nodes', v) <==> IsResident(nodes, v) {
      if IsResident(nodes', v) {
        var j :| LiveAt(nodes', j, v);
        assert LiveAt(nodes, j, v);
      }
      if IsResident(nodes, v) {
        var j :| LiveAt(nodes, j, v);
        assert LiveAt(nodes', j, v);
      }
    }
  }

  ghost function Elements(q: seq<int>): set<int> {
    set x | x in q
  }

  lemma {:induction false} ElementsCard(q: seq<int>)
    requires Distinct(q)
    ensures |Elements(q)| == |q|
  {
    if q != [] {
      TailOf(q);
      ElementsCard(q[1..]);
      assert Elements(q) == Elements(q[1..]) + {q[0]};
    } else {
      assert Elements(q) == {};
    }
  }

  ghost function Below(n: nat): (r: set<int>)
    ensures |r| == n && forall x :: x in r <==> 0 <= x < n
  {
    if n == 0 then {} else Below(n - 1) + {n - 1}
  }

  lemma {:induction false} AllFree(nodes: seq<Wse>, freelist: int, chain: seq<int>)
    requires ChainOk(nodes, freelist, chain) && forall i :: 0 <= i < |nodes| ==> nodes[i].free
    ensures |chain| == |nodes|
  {
    ElementsCard(chain);
    assert Elements(chain) == Below(|nodes|);
  }

  /** When the chain does not hold every entry, some entry is live. */
  lemma {:induction false} SomeLive(nodes: seq<Wse>, freelist: int, chain: seq<int>)
    requires ChainOk(nodes, freelist, chain) && |chain| < |nodes|
    ensures exists i :: 0 <= i < |nodes| && !nodes[i].free
  {
    if !exists i :: 0 <= i < |nodes| && !nodes[i].free {
      AllFree(nodes, freelist, chain);
    }
  }

  /** The next index, going round. */
  function After(i: nat, n: nat): nat
    requires 0 < n
  {
    (i + 1) % n
  }

  lemma {:induction false} AfterIs(i: nat, n: nat)
    requires i < n
    ensures After(i, n) == if i + 1 < n then i + 1 else 0
  {
  }

  /** A live entry outside the probes of its number is not in the hash table. */
  lemma {:induction false} NotHashed(nodes: seq<Wse>, table: seq<int>, hash: int -> nat, vpfn: int, r: int)
    requires 1 < |table| && HashOk(nodes, table, hash) && LiveAt(nodes, r, vpfn)
    requires forall k :: 0 <= k < PROBES ==> table[Probe(hash, |table|, vpfn, k)] != r
    ensures !nodes[r].hashed
  {
  }

  /** From the hand, going round, `j` comes before `i`. */
  predicate Before(head: int, j: int, i: int) {
    if head <= i then head <= j < i else head <= j || j < i
  }

  /** Every entry from the hand, going round, up to `i` is free. */
  ghost predicate AllPassed(q: seq<Wse>, head: int, i: int) {
    forall j :: 0 <= j < |q| && Before(head, j, i) ==> q[j].free
  }

  /** The hand has gone from `head0` to `head`: what it passed is free, and nothing else has
      changed. */
  ghost predicate Swept(was: seq<Wse>, q: seq<Wse>, head0: int, head: int) {
    && |q| == |was| && AllPassed(q, head0, head)
    && forall j :: 0 <= j < |q| && !Before(head0, j, head) ==> q[j] == was[j]
  }

  lemma {:induction false} SweptNone(q: seq<Wse>, head: int)
    ensures Swept(q, q, head, head)
  {
  }

  lemma {:induction false} SweptOn(was: seq<Wse>, q: seq<Wse>, head0: int, head: int, i: int, e: Wse, live: int)
    requires 0 <= head0 < |q| && 0 <= head < |q| && 0 <= i < |q| && Swept(was, q, head0, head)
    requires AllPassed(q, head, i) && !q[i].free && e.free && 0 <= live < |q| && live != i && !q[live].free
    ensures Swept(was, q[i := e], head0, After(i, |q|))
  {
    AfterIs(i, |q|);
    var q', next := q[i := e], After(i, |q|);
    forall j | 0 <= j < |q| ensures Before(head0, j, next) ==> q'[j].free
    ensures !Before(head0, j, next) ==> q'[j] == was[j] {
    }
  }

  /** How far `live` is from `i`, going round from the hand. */
  function Ahead(n: int, head: int, i: int, live: int): int {
    (if live < head then live + n else live) - (if i < head then i + n else i)
  }

  lemma {:induction false} PassNone(q: seq<Wse>, head: int, live: int)
    requires 0 <= head < |q| && 0 <= live < |q|
    ensures AllPassed(q, head, head) && 0 <= Ahead(|q|, head, head, live)
  {
  }

  lemma {:induction false} PassNext(q: seq<Wse>, head: int, i: int, live: int)
    requires 0 <= head < |q| && 0 <= i < |q| && 0 <= live < |q| && AllPassed(q, head, i) && q[i].free && !q[live].free
    requires 0 <= Ahead(|q|, head, i, live)
    ensures 0 <= After(i, |q|) < |q| && AllPassed(q, head, After(i, |q|))
    ensures 0 <= Ahead(|q|, head, After(i, |q|), live) < Ahead(|q|, head, i, live)
  {
    AfterIs(i, |q|);
    hide After;
  }

  class WorkingSetList {
    const hash: int -> nat
    const nodes: array<Wse>
    const table: array<int>
    var limit: int
    var size: int
    var head: int
    var freelist: int
    ghost var chain: seq<int>

    ghost predicate Linked()
      reads this, nodes, table
    {
      && 0 < limit <= nodes.Length && 0 <= size <= limit && 0 <= head < nodes.Length && 1 < table.Length
      && ChainOk(nodes[..], freelist, chain) && |chain| + size == nodes.Length
      && HashOk(nodes[..], table[..], hash)
    }

    /** All links right, and no page in two entries. */
    ghost predicate Valid()
      reads this, nodes, table
    {
      Linked() && OnceEach(nodes[..])
    }

    /** `vmp_wsl_init`, with every hash slot empty. */
    constructor (capacity: nat, tableSize: nat, hash: int -> nat)
      requires 6 <= capacity && 1 < tableSize
      ensures Valid() && fresh(nodes) && fresh(table) && nodes.Length == capacity && size == 0
      ensures forall v :: !IsResident(nodes[..], v)
    {
      this.hash := hash;
      nodes := new Wse[capacity](i => Wse(if i + 1 < capacity then i + 1 else NIL, false, false, true));
      table := new int[tableSize](_ => NIL);
      limit, size, head, freelist := 6, 0, 0, 0;
      chain := seq(capacity, i => i);
      new;
      assert forall i :: 0 <= i < capacity ==> chain[i] == i;
      forall i ensures i in chain <==> 0 <= i < capacity {
        if 0 <= i < capacity {
          assert chain[i] == i;
        }
      }
      assert forall k :: 0 <= k < capacity ==>
        nodes[..][k] == Wse(if k + 1 < capacity then k + 1 else NIL, false, false, true);
    }

    /** `hash_insert`: the first empty slot of four, or none. */
    method HashInsert(i: int)
      requires Linked() && 0 <= i < nodes.Length && !nodes[i].free && nodes[i].shared && !nodes[i].hashed
      modifies nodes, table
      ensures Linked() && exists h :: nodes[..] == old(nodes[..])[i := old(nodes[i]).(hashed := h)]
      ensures nodes[i].hashed <==>
                exists k :: 0 <= k < PROBES && old(table[..])[Probe(hash, table.Length, nodes[i].vpfn, k)] == NIL
    {
      hide HashOk, OnceEach, ChainOk;
      var k := 0;
      ghost var nodes0, table0 := nodes[..], table[..];
      while k < PROBES
        invariant 0 <= k <= PROBES && nodes[..] == nodes0 && table[..] == table0
        invariant forall j :: 0 <= j < k ==> table0[Probe(hash, table.Length, nodes0[i].vpfn, j)] != NIL
      {
        ProbeIn(hash, table.Length, nodes[i].vpfn, k);
        var slot := Probe(hash, table.Length, nodes[i].vpfn, k);
        if table[slot] == NIL {
          Enhash(nodes0, table0, hash, i, k);
          MarkOnly(nodes0, i, true);
          table[slot] := i;
          nodes[i] := nodes[i].(hashed := true);
          assert table[..] == table0[slot := i];
          assert nodes[..] == nodes0[i := nodes0[i].(hashed := true)];
          return;
        }
        k := k + 1;
      }
      assert nodes[..] == nodes0[i := nodes0[i].(hashed := false)];
    }

    /** `hash_remove` never runs out of probes: a hashed entry is within its four. */
    method HashRemove(i: int)
      requires Valid() && 0 <= i < nodes.Length && nodes[i].hashed
      modifies nodes, table
      ensures Valid() && nodes[..] == old(nodes[..])[i := old(nodes[i]).(hashed := false)]
    {
      hide OnceEach, ChainOk;
      ghost var nodes0, table0 := nodes[..], table[..];
      var k := 0;
      assert Probed(hash, table0, nodes0[i].vpfn, i);
      ghost var k0 :| 0 <= k0 < PROBES && table0[Probe(hash, |table0|, nodes0[i].vpfn, k0)] == i;
      hide HashOk;
      while true
        invariant 0 <= k <= k0 && nodes[..] == nodes0 && table[..] == table0
        decreases k0 - k
      {
        var slot := Probe(hash, table.Length, nodes[i].vpfn, k);
        if table[slot] == i {
          Unhash(nodes0, table0, hash, i, slot);
          MarkOnly(nodes0, i, false);
          table[slot] := NIL;
          nodes[i] := nodes[i].(hashed := false);
          assert table[..] == table0[slot := NIL];
          assert nodes[..] == nodes0[i := nodes0[i].(hashed := false)];
          return;
        }
        k := k + 1;
      }
    }

    /** `hash_lookup`: the probes and then the whole array find what a search of the
        array alone would, and with `delete` the entry leaves the hash table. */
    method HashLookup(vpfn: int, delete: bool) returns (r: int)
      requires Valid()
      modifies nodes, table
      ensures Valid() && (r == NIL <==> !old(IsResident(nodes[..], vpfn)))
              && (r != NIL ==> old(LiveAt(nodes[..], r, vpfn)))
      ensures r == NIL || !delete ==> nodes[..] == old(nodes[..])
      ensures r != NIL && delete ==> nodes[..] == old(nodes[..])[r := old(nodes[r]).(hashed := false)]
    {
      ghost var nodes0, table0 := nodes[..], table[..];
      var k := 0;
      while k < PROBES
        invariant 0 <= k <= PROBES && nodes[..] == nodes0 && table[..] == table0
        invariant forall j :: 0 <= j < k ==>
                    var x := table0[Probe(hash, table.Length, vpfn, j)]; x == NIL || nodes0[x].vpfn != vpfn
      {
        var slot := Probe(hash, table.Length, vpfn, k);
        var i := table[slot];
        if i != NIL && nodes[i].vpfn == vpfn {
          assert nodes0[i].hashed && !nodes0[i].free;
          assert LiveAt(nodes0, i, vpfn);
          hide HashOk, OnceEach, ChainOk;
          if delete {
            Unhash(nodes0, table0, hash, i, slot);
            MarkOnly(nodes0, i, false);
            table[slot] := NIL;
            nodes[i] := nodes[i].(hashed := false);
            assert table[..] == table0[slot := NIL];
            assert nodes[..] == nodes0[i := nodes0[i].(hashed := false)];
          }
          return i;
        }
        k := k + 1;
      }
      r := LinearSearch(vpfn);
      if r != NIL {
        NotHashed(nodes0, table0, hash, vpfn, r);
        assert !nodes[r].hashed;
        assert nodes0 == nodes0[r := nodes0[r].(hashed := false)];
      }
    }

    /** The fallback of `hash_lookup`. */
    method LinearSearch(vpfn: int) returns (r: int)
      requires nodes.Length > 0
      ensures r == NIL <==> !IsResident(nodes[..], vpfn)
      ensures r != NIL ==> LiveAt(nodes[..], r, vpfn)
    {
      r := 0;
      while r < nodes.Length
        invariant 0 <= r <= nodes.Length && forall j :: 0 <= j < r ==> !LiveAt(nodes[..], j, vpfn)
      {
        if nodes[r].vpfn == vpfn && !nodes[r].free {
          assert LiveAt(nodes[..], r, vpfn);
          return;
        }
        r := r + 1;
      }
      r := NIL;
    }

    /** The victim searches of `vmp_wsl_insert` and `vmp_wsl_trim` end: they go round
        from the hand to the first live entry. */
    method FindVictim() returns (i: int)
      requires Valid() && 0 < size
      ensures 0 <= i < nodes.Length && !nodes[i].free && AllPassed(nodes[..], head, i)
    {
      SomeLive(nodes[..], freelist, chain);
      hide HashOk, OnceEach, ChainOk, AllPassed, After, Ahead;
      ghost var q := nodes[..];
      ghost var live :| 0 <= live < |q| && !q[live].free;
      PassNone(q, head, live);
      i := head;
      while nodes[i].free
        invariant 0 <= i < nodes.Length && AllPassed(q, head, i) && 0 <= Ahead(|q|, head, i, live)
        decreases Ahead(|q|, head, i, live)
      {
        PassNext(q, head, i, live);
        i := After(i, nodes.Length);
      }
    }

    /** Evict the next live entry in the hand's way and take it out of the hash table;
        the caller reuses or frees it. */
    method EvictOne() returns (i: int)
      requires Valid() && 0 < size
      modifies this`head, nodes, table
      ensures Valid() && 0 <= i < nodes.Length && !old(nodes[i].free)
      ensures nodes[..] == old(nodes[..])[i := old(nodes[i]).(hashed := false)]
      ensures forall v :: IsResident(nodes[..], v) <==> old(IsResident(nodes[..], v))
      ensures AllPassed(old(nodes[..]), old(head), i) && head == After(i, nodes.Length)
    {
      i := FindVictim();
      ghost var nodes0 := nodes[..];
      MarkOnly(nodes0, i, false);
      head := After(i, nodes.Length);
      HashedShared(i);
      hide HashOk, OnceEach, ChainOk;
      if nodes[i].shared && nodes[i].hashed {
        HashRemove(i);
      }
      assert nodes[..] == nodes0[i := nodes0[i].(hashed := false)];
    }

    lemma {:induction false} HashedShared(i: int)
      requires Valid() && 0 <= i < nodes.Length
      ensures nodes[i].hashed ==> nodes[i].shared && !nodes[i].free
    {
    }

    /** Put a live entry that is not hashed on the free chain. */
    method FreeEntry(i: int)
      requires Valid() && 0 <= i < nodes.Length && !nodes[i].free && !nodes[i].hashed && 0 < size
      modifies this`freelist, this`size, this`chain, nodes
      ensures Valid() && size == old(size) - 1
      ensures nodes[..] == old(nodes[..])[i := old(nodes[i]).(free := true, vpfn := old(freelist))]
      ensures forall v :: IsResident(nodes[..], v) <==> old(IsResident(nodes[..], v)) && v != old(nodes[i].vpfn)
    {
      hide HashOk, OnceEach, ChainOk;
      ghost var nodes0, e := nodes[..], nodes[i].(free := true, vpfn := freelist);
      PushChain(nodes0, freelist, chain, i, e);
      UnhashedChange(nodes0, table[..], hash, i, e);
      Leaves(nodes0, i, e);
      nodes[i] := nodes[i].(free := true);
      nodes[i] := nodes[i].(vpfn := freelist);
      freelist := i;
      size := size - 1;
      chain := [i] + chain;
      assert nodes[..] == nodes0[i := e];
    }

    /** `vmp_wsl_insert`. `roomy` says whether memory is plentiful enough to let the set
        grow. At the limit, the page the hand comes to makes room. The list stays valid
        exactly when the page was not in it, or was the one that made room. */
    method Insert(vpfn: int, shared: bool, roomy: bool)
      requires Valid()
      modifies this, nodes, table
      ensures Linked() && IsResident(nodes[..], vpfn)
      ensures old(size) < old(limit) || (old(limit) < nodes.Length && roomy) ==>
                && size == old(size) + 1
                && (forall v :: IsResident(nodes[..], v) <==> v == vpfn || old(IsResident(nodes[..], v)))
                && (Valid() <==> !old(IsResident(nodes[..], vpfn)))
                && limit == (if old(size) < old(limit) then old(limit)
                             else if old(limit) + EXPANSION < nodes.Length then old(limit) + EXPANSION
                             else nodes.Length)
                && head == old(head)
      ensures !(old(size) < old(limit) || (old(limit) < nodes.Length && roomy)) ==>
                && size == old(size) && limit == old(limit)
                && exists i :: 0 <= i < nodes.Length && !old(nodes[i].free)
                     && AllPassed(old(nodes[..]), old(head), i) && head == After(i, nodes.Length)
                     && (Valid() <==> !old(IsResident(nodes[..], vpfn)) || old(nodes[i].vpfn) == vpfn)
                     && forall v ::
                          IsResident(nodes[..], v) <==>
                          v == vpfn || (old(IsResident(nodes[..], v)) && v != old(nodes[i].vpfn))
    {
      hide HashOk, OnceEach, ChainOk, IsResident, AllPassed, After;
      var i: int;
      if size < limit || (limit != nodes.Length && roomy) {
        if size == limit {
          limit := if limit + EXPANSION < nodes.Length then limit + EXPANSION else nodes.Length;
        }
        i := TakeFree(vpfn, shared);
      } else {
        i := Replace(vpfn, shared);
      }
      if shared {
        ghost var nodes0 := nodes[..];
        HashInsert(i);
        ghost var h :| nodes[..] == nodes0[i := nodes0[i].(hashed := h)];
        MarkOnly(nodes0, i, h);
      }
    }

    lemma {:induction false} LiveLeft(i: int) returns (live: int)
      requires Valid() && 0 < size && 0 <= i < nodes.Length && nodes[i].free
      ensures 0 <= live < nodes.Length && live != i && !nodes[live].free
    {
      SomeLive(nodes[..], freelist, chain);
      live :| 0 <= live < nodes.Length && !nodes[..][live].free;
    }

    /** Use the first free entry. */
    method TakeFree(vpfn: int, shared: bool) returns (i: int)
      requires Valid() && size < limit
      modifies this`freelist, this`size, this`chain, nodes
      ensures Linked() && size == old(size) + 1 && 0 <= i < nodes.Length && nodes[i] == Wse(vpfn, false, shared, false)
      ensures OnceEach(nodes[..]) <==> !old(IsResident(nodes[..], vpfn))
      ensures forall v :: IsResident(nodes[..], v) <==> v == vpfn || old(IsResident(nodes[..], v))
    {
      ghost var nodes0, e := nodes[..], Wse(vpfn, false, shared, false);
      PopChain(nodes0, freelist, chain, e);
      i := freelist;
      assert freelist != NIL;
      assert !nodes[i].hashed;
      hide HashOk, OnceEach, ChainOk, IsResident;
      UnhashedChange(nodes0, table[..], hash, i, e);
      Enters(nodes0, i, e);
      size := size + 1;
      freelist := nodes[i].vpfn;
      nodes[i] := nodes[i].(free := false);
      nodes[i] := nodes[i].(vpfn := vpfn);
      nodes[i] := nodes[i].(shared := shared);
      chain := chain[1..];
      assert nodes[..] == nodes0[i := e];
    }

    /** Reuse the entry of the page the hand comes to. */
    method Replace(vpfn: int, shared: bool) returns (i: int)
      requires Valid() && 0 < size
      modifies this`head, nodes, table
      ensures Linked() && 0 <= i < nodes.Length && nodes[i] == Wse(vpfn, false, shared, false) && !old(nodes[i].free)
      ensures OnceEach(nodes[..]) <==> !old(IsResident(nodes[..], vpfn)) || old(nodes[i].vpfn) == vpfn
      ensures AllPassed(old(nodes[..]), old(head), i) && head == After(i, nodes.Length)
      ensures forall v :: IsResident(nodes[..], v) <==>
                v == vpfn || (old(IsResident(nodes[..], v)) && v != old(nodes[i].vpfn))
    {
      ghost var nodesA := nodes[..];
      i := EvictOne();
      ghost var nodes0, e := nodes[..], Wse(vpfn, false, shared, false);
      hide HashOk, OnceEach, ChainOk, IsResident;
      LiveChain(nodes0, freelist, chain, i, e);
      UnhashedChange(nodes0, table[..], hash, i, e);
      Enters(nodes0, i, e);
      nodes[i] := nodes[i].(vpfn := vpfn);
      nodes[i] := nodes[i].(shared := shared);
      assert nodes[..] == nodes0[i := e];
    }

    /** `vmp_wsl_remove` of a page in the set. A hint may be wrong, but not name a free or
        hashed entry. */
    method Remove(vpfn: int, hint: int)
      requires Valid() && IsResident(nodes[..], vpfn)
      requires 0 <= hint < nodes.Length && nodes[hint].vpfn == vpfn ==> !nodes[hint].free && !nodes[hint].hashed
      modifies this, nodes, table
      ensures Valid() && size == old(size) - 1 && limit == old(limit)
      ensures forall v :: IsResident(nodes[..], v) <==> old(IsResident(nodes[..], v)) && v != vpfn
    {
      NotEmpty(nodes[..], freelist, chain, vpfn);
      hide HashOk, OnceEach, ChainOk, IsResident;
      var i := hint;
      if !(i != NIL && 0 <= i < nodes.Length && nodes[i].vpfn == vpfn) {
        ghost var nodes0 := nodes[..];
        i := HashLookup(vpfn, true);
        assert i != NIL;
        MarkOnly(nodes0, i, false);
      }
      FreeEntry(i);
    }

    /** `vmp_wsl_trim`: evict as many pages as asked for, or all there are. */
    method Trim(n: nat)
      requires Valid()
      modifies this, nodes, table
      ensures Valid() && limit == old(limit) && size == (if n < old(size) then old(size) - n else 0)
      ensures forall v :: IsResident(nodes[..], v) ==> old(IsResident(nodes[..], v))
      ensures n < old(size) ==> Swept(old(nodes[..]), nodes[..], old(head), head)
    {
      hide HashOk, OnceEach, ChainOk, IsResident, Swept, AllPassed, After;
      var trimmed := 0;
      SweptNone(nodes[..], head);
      while trimmed < n && size > 0
        invariant 0 < size ==> Swept(old(nodes[..]), nodes[..], old(head), head)
        invariant 0 <= trimmed <= n && Valid() && limit == old(limit) && size == old(size) - trimmed
        invariant forall v :: IsResident(nodes[..], v) ==> old(IsResident(nodes[..], v))
      {
        ghost var q, h := nodes[..], head;
        var i := EvictOne();
        FreeEntry(i);
        if 0 < size {
          ghost var live := LiveLeft(i);
          SweptOn(old(nodes[..]), q, old(head), h, i, nodes[i], live);
          assert nodes[..] == q[i := nodes[i]];
        }
        trimmed := trimmed + 1;
      }
    }
  }

  lemma {:induction false} NotEmpty(nodes: seq<Wse>, freelist: int, chain: seq<int>, vpfn: int)
    requires ChainOk(nodes, freelist, chain) && IsResident(nodes, vpfn)
    ensures |chain| < |nodes|
  {
    var i :| LiveAt(nodes, i, vpfn);
    ElementsCard(chain);
    var b := Below(|nodes|);
    assert Elements(chain) <= b - {i};
    Subset(Elements(chain), b - {i});
  }

  lemma {:induction false} Subset(a: set<int>, b: set<int>)
    requires a <= b
    ensures |a| <= |b|
  {
    assert b == a + (b - a);
  }
}
