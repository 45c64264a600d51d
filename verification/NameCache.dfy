/**
  The name cache: a tree of names with reference counts, whose unreferenced members
  wait on an LRU queue. Each operation is taken under its locks, as one step. `handles`
  counts the references callers hold, and `inactive` is the counter that bounds the queue.
 */
module NameCache {
  import opened Counting
  import opened Options
  import opened Queues

  type Nid = nat
  type Vnode = nat
  type Vfs = nat
  type Name = string

  /** What a directory of the (unchanging) file system holds. */
  type Fs = (Vnode, Name) -> Option<Vnode>

  datatype Node = Node(
    refcnt: int,
    vp: Option<Vnode>,
    vfs: Vfs,
    name: Name,
    parent: Option<Nid>,
    entries: map<Name, Nid>,
    depth: nat)

  datatype Cache = Cache(nodes: map<Nid, Node>, lru: seq<Nid>, handles: map<Nid, nat>, inactive: int)

  function Handles(c: Cache, n: Nid): nat {
    if n in c.handles then c.handles[n] else 0
  }

  function WithNode(c: Cache, n: Nid, nd: Node): Cache {
    c.(nodes := c.nodes[n := nd])
  }

  // ------------------------------------------------------------------ the operations

  /** `nc_retain`: leaving the queue does not lower `inactive`. */
  function Retain(c: Cache, n: Nid): Cache
    requires n in c.nodes
  {
    var nd := c.nodes[n];
    WithNode(c, n, nd.(refcnt := nd.refcnt + 1)).(lru := if nd.refcnt == 0 then Without(c.lru, n) else c.lru)
  }

  /** `nc_release_internal`: at zero a node without a parent is freed, any other queued. */
  function Drop(c: Cache, n: Nid): Cache
    requires n in c.nodes
  {
    var nd := c.nodes[n];
    if nd.refcnt != 1 then WithNode(c, n, nd.(refcnt := nd.refcnt - 1))
    else if nd.parent.None? then c.(nodes := c.nodes - {n})
    else WithNode(c, n, nd.(refcnt := 0)).(lru := c.lru + [n], inactive := c.inactive + 1)
  }

  function AddHandle(c: Cache, n: Nid, k: int): Cache
    requires 0 <= Handles(c, n) + k
  {
    c.(handles := c.handles[n := Handles(c, n) + k])
  }

  datatype Result = Found(n: Nid) | NotFound

  /** `nc_lookup` in a directory the caller holds. `id` is a new node's identity. */
  function Lookup(c: Cache, fs: Fs, n: Nid, name: Name, id: Nid): (Cache, Result)
    requires n in c.nodes && c.nodes[n].vp.Some? && (name in c.nodes[n].entries ==> c.nodes[n].entries[name] in c.nodes)
  {
    var nd := c.nodes[n];
    if name in nd.entries then
      var child := nd.entries[name];
      if c.nodes[child].vp.None? then (c, NotFound)
      else (AddHandle(Retain(c, child), child, 1), Found(child))
    else
      var vp := fs(nd.vp.value, name);
      var c1 := Retain(c, n);
      var c2 := WithNode(c1, n, c1.nodes[n].(entries := nd.entries[name := id]));
      var child := Node(if vp.Some? then 1 else 0, vp, nd.vfs, name, Some(n), map[], nd.depth + 1);
      var c3 := WithNode(c2, id, child);
      if vp.Some? then (c3.(handles := c3.handles[id := 1]), Found(id))
      else
        (c3.(lru := c3.lru + [id], inactive := c3.inactive + 1), NotFound)
  }

  /** `nc_release` of a handle. */
  function Release(c: Cache, n: Nid): Cache
    requires n in c.nodes && 0 < Handles(c, n)
  {
    AddHandle(Drop(c, n), n, -1)
  }

  /** `do_trim` of a queued node: out of its directory, freed, and the directory's
      reference dropped. */
  function Trim(c: Cache, n: Nid): Cache
    requires n in c.nodes && c.nodes[n].parent.Some? && c.nodes[n].parent.value in c.nodes
  {
    var nd := c.nodes[n];
    var p := nd.parent.value;
    var dir := c.nodes[p];
    var c1 := WithNode(c, p, dir.(entries := dir.entries - {nd.name}));
    var c2 := c1.(nodes := c1.nodes - {n}, lru := Without(c1.lru, n), inactive := c.inactive - 1);
    if p in c2.nodes then Drop(c2, p) else c2
  }

  function MakeRoot(c: Cache, vfs: Vfs, vp: Vnode, id: Nid): Cache {
    WithNode(c, id, Node(1, Some(vp), vfs, "", None, map[], 0)).(handles := c.handles[id := 1])
  }

  // ------------------------------------------------------------------- the invariant

  /** A node's count is the handles to it plus the names cached under it. */
  ghost predicate CountOk(c: Cache, n: Nid, extra: int)
    requires n in c.nodes
  {
    c.nodes[n].refcnt == Handles(c, n) + |c.nodes[n].entries.Keys| + extra
  }

  /** A node's place: its directory lists it, and it carries what the file system says. */
  ghost predicate PlaceOk(c: Cache, fs: Fs, n: Nid)
    requires n in c.nodes
  {
    var nd := c.nodes[n];
    match nd.parent
    case None => nd.depth == 0 && nd.vp.Some?
    case Some(p) =>
      && p in c.nodes && p != n && nd.name in c.nodes[p].entries && c.nodes[p].entries[nd.name] == n
      && nd.depth == c.nodes[p].depth + 1 && nd.vfs == c.nodes[p].vfs
      && c.nodes[p].vp.Some? && nd.vp == fs(c.nodes[p].vp.value, nd.name)
  }

  ghost predicate EntriesOk(c: Cache, n: Nid)
    requires n in c.nodes
  {
    forall name :: name in c.nodes[n].entries ==>
      var x := c.nodes[n].entries[name];
      x in c.nodes && c.nodes[x].parent == Some(n) && c.nodes[x].name == name
  }

  ghost predicate AllCounts(c: Cache, ahead: Option<Nid>) {
    forall n :: n in c.nodes ==> CountOk(c, n, B(ahead == Some(n)))
  }

  /** Handles are to nodes that exist, never to one that records a missing name. */
  ghost predicate HandlesOk(c: Cache) {
    forall n :: 0 < Handles(c, n) ==> n in c.nodes && c.nodes[n].vp.Some?
  }

  ghost predicate AllPlaces(c: Cache, fs: Fs) {
    forall n :: n in c.nodes ==> PlaceOk(c, fs, n)
  }

  ghost predicate AllEntries(c: Cache) {
    forall n :: n in c.nodes ==> EntriesOk(c, n)
  }

  /** A node is queued exactly when nothing refers to it; a root is never idle. */
  ghost predicate LruOk(c: Cache) {
    && Distinct(c.lru) && (forall n :: n in c.lru <==> n in c.nodes && c.nodes[n].refcnt == 0)
    && (forall n :: n in c.nodes && c.nodes[n].parent.None? ==> 0 < c.nodes[n].refcnt)
  }

  /** All of it, but for the count of the node `ahead`, which is one too high. */
  ghost predicate Almost(c: Cache, fs: Fs, ahead: Option<Nid>) {
    AllCounts(c, ahead) && HandlesOk(c) && AllPlaces(c, fs) && AllEntries(c) && LruOk(c)
  }

  ghost predicate Inv(c: Cache, fs: Fs) {
    Almost(c, fs, None)
  }

  // ------------------------------------------------------------------ dropping a count

  lemma {:induction false} DropCounts(c: Cache, n: Nid)
    requires AllCounts(c, Some(n)) && n in c.nodes
    ensures AllCounts(Drop(c, n), None)
  {
    var c' := Drop(c, n);
    assert CountOk(c, n, 1);
    forall x | x in c'.nodes ensures CountOk(c', x, 0) {
      assert CountOk(c, x, B(Some(n) == Some(x)));
    }
  }

  lemma {:induction false} LastCount(c: Cache, n: Nid)
    requires AllCounts(c, Some(n)) && n in c.nodes
    ensures 0 < c.nodes[n].refcnt && (c.nodes[n].refcnt == 1 ==> c.nodes[n].entries.Keys == {} && Handles(c, n) == 0)
  {
    assert CountOk(c, n, 1);
  }

  lemma {:induction false} DropPlaces(c: Cache, fs: Fs, n: Nid)
    requires AllPlaces(c, fs) && n in c.nodes && (c.nodes[n].refcnt == 1 ==> c.nodes[n].entries.Keys == {})
    ensures AllPlaces(Drop(c, n), fs)
  {
    var c' := Drop(c, n);
    forall x | x in c'.nodes ensures PlaceOk(c', fs, x) {
      assert PlaceOk(c, fs, x);
    }
  }

  lemma {:induction false} DropEntries(c: Cache, n: Nid)
    requires AllEntries(c) && n in c.nodes
    ensures AllEntries(Drop(c, n))
  {
    var c' := Drop(c, n);
    forall x | x in c'.nodes ensures EntriesOk(c', x) {
      assert EntriesOk(c, x);
    }
  }

  lemma {:induction false} DropLru(c: Cache, n: Nid)
    requires LruOk(c) && n in c.nodes && 0 < c.nodes[n].refcnt
    ensures LruOk(Drop(c, n))
  {
    WithLast(c.lru, n);
  }

  lemma {:induction false} DropHandles(c: Cache, n: Nid)
    requires HandlesOk(c) && n in c.nodes && (c.nodes[n].refcnt == 1 ==> Handles(c, n) == 0)
    ensures HandlesOk(Drop(c, n)) && Drop(c, n).handles == c.handles
  {
    assert forall x :: Handles(Drop(c, n), x) == Handles(c, x);
  }

  lemma {:induction false} DropKeeps(c: Cache, fs: Fs, n: Nid)
    requires Almost(c, fs, Some(n)) && n in c.nodes
    ensures Inv(Drop(c, n), fs)
  {
    hide AllCounts, HandlesOk, AllPlaces, AllEntries, LruOk, Drop;
    LastCount(c, n);
    DropCounts(c, n);
    DropHandles(c, n);
    DropPlaces(c, fs, n);
    DropEntries(c, n);
    DropLru(c, n);
  }

  // ----------------------------------------------------------------------- releasing

  lemma {:induction false} FewerCounts(c: Cache, n: Nid)
    requires AllCounts(c, None) && HandlesOk(c) && 0 < Handles(c, n)
    ensures AllCounts(AddHandle(c, n, -1), Some(n)) && HandlesOk(AddHandle(c, n, -1))
  {
    var c1 := AddHandle(c, n, -1);
    assert forall x :: Handles(c1, x) == Handles(c, x) - B(x == n);
    forall x | x in c1.nodes ensures CountOk(c1, x, B(Some(n) == Some(x))) {
      assert CountOk(c, x, 0);
    }
  }

  /** Handles are not part of the tree. */
  lemma {:induction false} SameTree(c: Cache, c': Cache, fs: Fs)
    requires AllPlaces(c, fs) && AllEntries(c) && LruOk(c) && c'.nodes == c.nodes && c'.lru == c.lru
    ensures AllPlaces(c', fs) && AllEntries(c') && LruOk(c')
  {
    forall x | x in c'.nodes ensures PlaceOk(c', fs, x) {
      assert PlaceOk(c, fs, x);
    }
    forall x | x in c'.nodes ensures EntriesOk(c', x) {
      assert EntriesOk(c, x);
    }
  }

  lemma {:induction false} ReleaseIs(c: Cache, n: Nid)
    requires n in c.nodes && 0 < Handles(c, n)
    ensures Release(c, n) == Drop(AddHandle(c, n, -1), n)
  {
  }

  lemma {:induction false} ReleaseKeeps(c: Cache, fs: Fs, n: Nid)
    requires Inv(c, fs) && n in c.nodes && 0 < Handles(c, n)
    ensures Inv(Release(c, n), fs)
  {
    hide AllCounts, HandlesOk, AllPlaces, AllEntries, LruOk, Drop, Release;
    FewerCounts(c, n);
    SameTree(c, AddHandle(c, n, -1), fs);
    ReleaseIs(c, n);
    DropKeeps(AddHandle(c, n, -1), fs, n);
  }

  // ------------------------------------------------------------------------ trimming

  /** A queued node out of its directory and gone. */
  function Cut(c: Cache, n: Nid): Cache
    requires n in c.nodes && c.nodes[n].parent.Some? && c.nodes[n].parent.value in c.nodes
  {
    var p := c.nodes[n].parent.value;
    var c1 := WithNode(c, p, c.nodes[p].(entries := c.nodes[p].entries - {c.nodes[n].name}));
    c1.(nodes := c1.nodes - {n}, lru := Without(c1.lru, n), inactive := c.inactive - 1)
  }

  /** `n` is listed in its directory `p`. */
  predicate Listed(c: Cache, n: Nid, p: Nid) {
    && n in c.nodes && c.nodes[n].parent == Some(p) && p in c.nodes && p != n
    && c.nodes[n].name in c.nodes[p].entries && c.nodes[p].entries[c.nodes[n].name] == n
  }

  /** What the invariant says of a queued node. */
  lemma {:induction false} QueuedNode(c: Cache, fs: Fs, n: Nid)
    requires Inv(c, fs) && n in c.lru
    ensures n in c.nodes && c.nodes[n].refcnt == 0 && Handles(c, n) == 0 && c.nodes[n].entries.Keys == {}
    ensures c.nodes[n].parent.Some? && Listed(c, n, c.nodes[n].parent.value)
  {
    assert CountOk(c, n, 0) && PlaceOk(c, fs, n);
  }

  lemma {:induction false} CutCounts(c: Cache, n: Nid, p: Nid)
    requires AllCounts(c, None) && Listed(c, n, p)
    ensures AllCounts(Cut(c, n), Some(p))
  {
    var c' := Cut(c, n);
    var was, now := c.nodes[p].entries.Keys, c'.nodes[p].entries.Keys;
    assert now == was - {c.nodes[n].name};
    CardOne(was, now, c.nodes[n].name);
    hide Listed;
    forall x | x in c'.nodes ensures CountOk(c', x, B(Some(p) == Some(x))) {
      assert CountOk(c, x, 0);
    }
  }

  lemma {:induction false} CutPlaces(c: Cache, fs: Fs, n: Nid, p: Nid)
    requires AllPlaces(c, fs) && Listed(c, n, p) && c.nodes[n].entries.Keys == {}
    ensures AllPlaces(Cut(c, n), fs)
  {
    var c' := Cut(c, n);
    forall x | x in c'.nodes ensures PlaceOk(c', fs, x) {
      assert PlaceOk(c, fs, x);
    }
  }

  lemma {:induction false} CutEntries(c: Cache, n: Nid, p: Nid)
    requires AllEntries(c) && Listed(c, n, p)
    ensures AllEntries(Cut(c, n))
  {
    var c' := Cut(c, n);
    forall x | x in c'.nodes ensures EntriesOk(c', x) {
      assert EntriesOk(c, x);
    }
  }

  lemma {:induction false} CutRest(c: Cache, n: Nid, p: Nid)
    requires LruOk(c) && HandlesOk(c) && Listed(c, n, p) && Handles(c, n) == 0
    ensures LruOk(Cut(c, n)) && HandlesOk(Cut(c, n))
  {
    WithoutDistinct(c.lru, n);
    assert forall x :: Handles(Cut(c, n), x) == Handles(c, x);
  }

  lemma {:induction false} TrimIs(c: Cache, n: Nid, p: Nid)
    requires Listed(c, n, p)
    ensures p in Cut(c, n).nodes && Trim(c, n) == Drop(Cut(c, n), p) && Cut(c, n).handles == c.handles
    ensures Cut(c, n).nodes.Keys == c.nodes.Keys - {n}
  {
  }

  lemma {:induction false} DropKeys(c: Cache, n: Nid)
    requires n in c.nodes
    ensures Drop(c, n).nodes.Keys <= c.nodes.Keys && Drop(c, n).handles == c.handles
  {
  }

  lemma {:induction false} TrimKeeps(c: Cache, fs: Fs, n: Nid)
    requires Inv(c, fs) && n in c.lru
    ensures n in c.nodes && c.nodes[n].parent.Some? && c.nodes[n].parent.value in c.nodes
    ensures Inv(Trim(c, n), fs) && Trim(c, n).nodes.Keys < c.nodes.Keys && Trim(c, n).handles == c.handles
  {
    hide Inv, AllCounts, AllPlaces, AllEntries, HandlesOk, LruOk, Trim, Drop, Cut;
    QueuedNode(c, fs, n);
    var p := c.nodes[n].parent.value;
    CutKeeps(c, fs, n, p);
    TrimIs(c, n, p);
    DropKeeps(Cut(c, n), fs, p);
    DropKeys(Cut(c, n), p);
  }

  lemma {:induction false} CutKeeps(c: Cache, fs: Fs, n: Nid, p: Nid)
    requires Inv(c, fs) && Listed(c, n, p) && Handles(c, n) == 0 && c.nodes[n].entries.Keys == {}
    ensures Almost(Cut(c, n), fs, Some(p))
  {
    hide AllCounts, AllPlaces, AllEntries, HandlesOk, LruOk, Cut;
    CutCounts(c, n, p);
    CutPlaces(c, fs, n, p);
    CutEntries(c, n, p);
    CutRest(c, n, p);
  }

  // ------------------------------------------------------------------- taking a handle

  function Take(c: Cache, n: Nid): Cache
    requires n in c.nodes
  {
    AddHandle(Retain(c, n), n, 1)
  }

  lemma {:induction false} TakeCounts(c: Cache, n: Nid)
    requires AllCounts(c, None) && HandlesOk(c) && n in c.nodes && c.nodes[n].vp.Some?
    ensures AllCounts(Take(c, n), None) && HandlesOk(Take(c, n))
  {
    var c' := Take(c, n);
    assert forall x :: Handles(c', x) == Handles(c, x) + B(x == n);
    forall x | x in c'.nodes ensures CountOk(c', x, 0) {
      assert CountOk(c, x, 0);
    }
  }

  lemma {:induction false} TakePlaces(c: Cache, fs: Fs, n: Nid)
    requires AllPlaces(c, fs) && AllEntries(c) && n in c.nodes
    ensures AllPlaces(Take(c, n), fs) && AllEntries(Take(c, n))
  {
    var c' := Take(c, n);
    forall x | x in c'.nodes ensures PlaceOk(c', fs, x) {
      assert PlaceOk(c, fs, x);
    }
    forall x | x in c'.nodes ensures EntriesOk(c', x) {
      assert EntriesOk(c, x);
    }
  }

  lemma {:induction false} TakeLru(c: Cache, n: Nid)
    requires LruOk(c) && n in c.nodes && 0 <= c.nodes[n].refcnt
    ensures LruOk(Take(c, n))
  {
    WithoutDistinct(c.lru, n);
  }

  /** Another handle to a node that has something behind it, queued or not. */
  lemma {:induction false} TakeKeeps(c: Cache, fs: Fs, n: Nid)
    requires Inv(c, fs) && n in c.nodes && c.nodes[n].vp.Some?
    ensures Inv(Take(c, n), fs)
  {
    assert CountOk(c, n, 0);
    hide AllCounts, AllPlaces, AllEntries, HandlesOk, LruOk, Take;
    TakeCounts(c, n);
    TakePlaces(c, fs, n);
    TakeLru(c, n);
  }

  // ----------------------------------------------------------------------- looking up

  /** A new name under `n`, with what the file system says of it. */
  function Enter(c: Cache, n: Nid, name: Name, id: Nid, vp: Option<Vnode>): Cache
    requires n in c.nodes
  {
    var nd := c.nodes[n];
    var c1 := WithNode(c, n, nd.(refcnt := nd.refcnt + 1, entries := nd.entries[name := id]));
    var c2 := WithNode(c1, id, Node(B(vp.Some?), vp, nd.vfs, name, Some(n), map[], nd.depth + 1));
    if vp.Some? then c2.(handles := c2.handles[id := 1]) else c2.(lru := c2.lru + [id], inactive := c2.inactive + 1)
  }

  lemma {:induction false} LookupIs(c: Cache, fs: Fs, n: Nid, name: Name, id: Nid)
    requires n in c.nodes && c.nodes[n].vp.Some? && (name in c.nodes[n].entries ==> c.nodes[n].entries[name] in c.nodes)
    requires 0 < c.nodes[n].refcnt
    ensures var vp := fs(c.nodes[n].vp.value, name);
            Lookup(c, fs, n, name, id) ==
            if name in c.nodes[n].entries then
              var x := c.nodes[n].entries[name];
              if c.nodes[x].vp.None? then (c, NotFound) else (Take(c, x), Found(x))
            else (Enter(c, n, name, id, vp), if vp.Some? then Found(id) else NotFound)
  {
    var nd := c.nodes[n];
    if name !in nd.entries {
      var c1 := Retain(c, n);
      assert WithNode(c1, n, c1.nodes[n].(entries := nd.entries[name := id])).nodes ==
             c.nodes[n := nd.(refcnt := nd.refcnt + 1, entries := nd.entries[name := id])];
    }
  }

  lemma {:induction false} EnterHandles(c: Cache, n: Nid, name: Name, id: Nid, vp: Option<Vnode>, x: Nid)
    requires HandlesOk(c) && n in c.nodes && id !in c.nodes
    ensures Handles(Enter(c, n, name, id, vp), x) == if x == id then B(vp.Some?) else Handles(c, x)
  {
    NoHandle(c, id);
  }

  lemma {:induction false} EnterHandlesOk(c: Cache, n: Nid, name: Name, id: Nid, vp: Option<Vnode>)
    requires HandlesOk(c) && n in c.nodes && id !in c.nodes
    ensures HandlesOk(Enter(c, n, name, id, vp))
  {
    var c' := Enter(c, n, name, id, vp);
    forall x | 0 < Handles(c', x) ensures x in c'.nodes && c'.nodes[x].vp.Some? {
      EnterHandles(c, n, name, id, vp, x);
    }
  }

  lemma {:induction false} EnterNode(c: Cache, n: Nid, name: Name, id: Nid, vp: Option<Vnode>, x: Nid)
    requires n in c.nodes && id !in c.nodes && x in c.nodes
    ensures var nd := c.nodes[x];
            var c' := Enter(c, n, name, id, vp);
            && x in c'.nodes
            && c'.nodes[x] == if x == n then nd.(refcnt := nd.refcnt + 1, entries := nd.entries[name := id]) else nd
  {
  }

  lemma {:induction false} OneMore(entries: map<Name, Nid>, name: Name, id: Nid)
    requires name !in entries
    ensures |entries[name := id].Keys| == |entries.Keys| + 1
  {
    assert entries[name := id].Keys == entries.Keys + {name};
    CardOne(entries.Keys, entries.Keys + {name}, name);
  }

  lemma {:induction false} EnterCount(c: Cache, n: Nid, name: Name, id: Nid, vp: Option<Vnode>, x: Nid)
    requires HandlesOk(c) && n in c.nodes && id !in c.nodes && name !in c.nodes[n].entries
    requires x in c.nodes && CountOk(c, x, 0)
    ensures x in Enter(c, n, name, id, vp).nodes && CountOk(Enter(c, n, name, id, vp), x, 0)
  {
    hide HandlesOk, Handles, Enter;
    EnterNode(c, n, name, id, vp, x);
    EnterHandles(c, n, name, id, vp, x);
    OneMore(c.nodes[n].entries, name, id);
  }

  lemma {:induction false} EnterCounts(c: Cache, n: Nid, name: Name, id: Nid, vp: Option<Vnode>)
    requires AllCounts(c, None) && HandlesOk(c) && n in c.nodes && id !in c.nodes && name !in c.nodes[n].entries
    ensures AllCounts(Enter(c, n, name, id, vp), None)
  {
    var c' := Enter(c, n, name, id, vp);
    assert c'.nodes.Keys == c.nodes.Keys + {id};
    EnterHandles(c, n, name, id, vp, id);
    assert c'.nodes[id].entries.Keys == {};
    assert CountOk(c', id, 0);
    forall x | x in c.nodes ensures CountOk(c', x, 0) {
      assert CountOk(c, x, 0);
      EnterCount(c, n, name, id, vp, x);
    }
    hide CountOk, Enter, HandlesOk, Handles;
  }

  lemma {:induction false} EnterPlace(c: Cache, fs: Fs, n: Nid, name: Name, id: Nid, vp: Option<Vnode>, x: Nid)
    requires n in c.nodes && id !in c.nodes && name !in c.nodes[n].entries && x in c.nodes && PlaceOk(c, fs, x)
    ensures PlaceOk(Enter(c, n, name, id, vp), fs, x)
  {
  }

  lemma {:induction false} EnterPlaces(c: Cache, fs: Fs, n: Nid, name: Name, id: Nid)
    requires AllPlaces(c, fs) && n in c.nodes && id !in c.nodes && name !in c.nodes[n].entries && c.nodes[n].vp.Some?
    ensures AllPlaces(Enter(c, n, name, id, fs(c.nodes[n].vp.value, name)), fs)
  {
    var vp := fs(c.nodes[n].vp.value, name);
    var c' := Enter(c, n, name, id, vp);
    assert c'.nodes.Keys == c.nodes.Keys + {id};
    assert PlaceOk(c', fs, id);
    hide PlaceOk, Enter;
    forall x | x in c.nodes ensures PlaceOk(c', fs, x) {
      EnterPlace(c, fs, n, name, id, vp, x);
    }
  }

  lemma {:induction false} EnterEntries(c: Cache, n: Nid, name: Name, id: Nid, vp: Option<Vnode>)
    requires AllEntries(c) && n in c.nodes && id !in c.nodes
    ensures AllEntries(Enter(c, n, name, id, vp))
  {
    var c' := Enter(c, n, name, id, vp);
    forall x | x in c'.nodes ensures EntriesOk(c', x) {
      assert x in c.nodes ==> EntriesOk(c, x);
    }
  }

  lemma {:induction false} EnterLru(c: Cache, n: Nid, name: Name, id: Nid, vp: Option<Vnode>)
    requires LruOk(c) && n in c.nodes && id !in c.nodes && 0 < c.nodes[n].refcnt
    ensures LruOk(Enter(c, n, name, id, vp))
  {
    WithLast(c.lru, id);
  }

  lemma {:induction false} EnterKeeps(c: Cache, fs: Fs, n: Nid, name: Name, id: Nid)
    requires Inv(c, fs) && n in c.nodes && c.nodes[n].vp.Some? && 0 < c.nodes[n].refcnt && id !in c.nodes
    requires name !in c.nodes[n].entries
    ensures Inv(Enter(c, n, name, id, fs(c.nodes[n].vp.value, name)), fs)
  {
    hide AllCounts, AllPlaces, AllEntries, HandlesOk, LruOk, Enter;
    var vp := fs(c.nodes[n].vp.value, name);
    EnterCounts(c, n, name, id, vp);
    EnterHandlesOk(c, n, name, id, vp);
    EnterPlaces(c, fs, n, name, id);
    EnterEntries(c, n, name, id, vp);
    EnterLru(c, n, name, id, vp);
  }

  lemma {:induction false} HeldNode(c: Cache, fs: Fs, n: Nid, name: Name)
    requires Inv(c, fs) && 0 < Handles(c, n)
    ensures n in c.nodes && c.nodes[n].vp.Some? && 0 < c.nodes[n].refcnt
    ensures name in c.nodes[n].entries ==>
              var x := c.nodes[n].entries[name];
              x in c.nodes && c.nodes[x].vp == fs(c.nodes[n].vp.value, name)
  {
    assert CountOk(c, n, 0) && EntriesOk(c, n);
    if name in c.nodes[n].entries {
      assert PlaceOk(c, fs, c.nodes[n].entries[name]);
    }
  }

  /** A lookup leaves its answer in the cache, negative or not, under one new node if the
      name was not there and under none if it was. */
  lemma {:induction false} LookupCaches(c: Cache, fs: Fs, n: Nid, name: Name, id: Nid)
    requires Inv(c, fs) && 0 < Handles(c, n) && id !in c.nodes
    ensures n in c.nodes && c.nodes[n].vp.Some? && (name in c.nodes[n].entries ==> c.nodes[n].entries[name] in c.nodes)
    ensures var c' := Lookup(c, fs, n, name, id).0;
            && n in c'.nodes && name in c'.nodes[n].entries
            && var x := c'.nodes[n].entries[name];
               && x in c'.nodes && c'.nodes[x].vp == fs(c.nodes[n].vp.value, name)
               && c'.nodes.Keys == c.nodes.Keys + (if name in c.nodes[n].entries then {} else {id})
  {
    hide Inv, Lookup;
    HeldNode(c, fs, n, name);
    if name in c.nodes[n].entries {
      HitAnswer(c, fs, n, name);
      HitCaches(c, fs, n, name, id);
    } else {
      MissCaches(c, fs, n, name, id);
    }
  }

  lemma {:induction false} HitAnswer(c: Cache, fs: Fs, n: Nid, name: Name)
    requires Inv(c, fs) && n in c.nodes && c.nodes[n].vp.Some? && name in c.nodes[n].entries
    ensures var x := c.nodes[n].entries[name]; x in c.nodes && c.nodes[x].vp == fs(c.nodes[n].vp.value, name)
  {
    assert EntriesOk(c, n);
    assert PlaceOk(c, fs, c.nodes[n].entries[name]);
  }

  lemma {:induction false} HitCaches(c: Cache, fs: Fs, n: Nid, name: Name, id: Nid)
    requires n in c.nodes && c.nodes[n].vp.Some? && name in c.nodes[n].entries && c.nodes[n].entries[name] in c.nodes
    ensures var c' := Lookup(c, fs, n, name, id).0;
            && n in c'.nodes && c'.nodes[n].entries == c.nodes[n].entries && c'.nodes.Keys == c.nodes.Keys
            && c'.nodes[c.nodes[n].entries[name]].vp == c.nodes[c.nodes[n].entries[name]].vp
  {
  }

  lemma {:induction false} MissCaches(c: Cache, fs: Fs, n: Nid, name: Name, id: Nid)
    requires n in c.nodes && c.nodes[n].vp.Some? && name !in c.nodes[n].entries && id !in c.nodes
    ensures var c' := Lookup(c, fs, n, name, id).0;
            && n in c'.nodes && c'.nodes[n].entries == c.nodes[n].entries[name := id]
            && c'.nodes.Keys == c.nodes.Keys + {id} && c'.nodes[id].vp == fs(c.nodes[n].vp.value, name)
  {
  }

  /** A lookup answers as the file system would, from a positive entry, a negative one or
      none, hands out a handle exactly when there is something, and keeps the cache
      right. */
  lemma {:induction false} LookupKeeps(c: Cache, fs: Fs, n: Nid, name: Name, id: Nid)
    requires Inv(c, fs) && 0 < Handles(c, n) && id !in c.nodes
    ensures n in c.nodes && c.nodes[n].vp.Some? && (name in c.nodes[n].entries ==> c.nodes[n].entries[name] in c.nodes)
    ensures var (c', r) := Lookup(c, fs, n, name, id);
            && Inv(c', fs)
            && match fs(c.nodes[n].vp.value, name)
               case None => r.NotFound? && c'.handles == c.handles
               case Some(vp) =>
                 && r.Found? && r.n in c'.nodes && c'.nodes[r.n].vp == Some(vp) && c'.nodes[r.n].parent == Some(n)
                 && Handles(c', r.n) == Handles(c, r.n) + 1
  {
    HeldNode(c, fs, n, name);
    LookupIs(c, fs, n, name, id);
    if name in c.nodes[n].entries {
      var x := c.nodes[n].entries[name];
      assert EntriesOk(c, n);
      if c.nodes[x].vp.Some? {
        TakeKeeps(c, fs, x);
      }
    } else {
      NoHandle(c, id);
      EnterKeeps(c, fs, n, name, id);
    }
    hide Inv, Lookup;
  }

  lemma {:induction false} NoHandle(c: Cache, id: Nid)
    requires HandlesOk(c) && id !in c.nodes
    ensures Handles(c, id) == 0
  {
  }

  lemma {:induction false} RootCounts(c: Cache, vfs: Vfs, vp: Vnode, id: Nid)
    requires AllCounts(c, None) && HandlesOk(c) && id !in c.nodes
    ensures AllCounts(MakeRoot(c, vfs, vp, id), None) && HandlesOk(MakeRoot(c, vfs, vp, id))
  {
    var c' := MakeRoot(c, vfs, vp, id);
    NoHandle(c, id);
    assert forall x :: Handles(c', x) == if x == id then 1 else Handles(c, x);
    assert c'.nodes[id].entries.Keys == {};
    hide HandlesOk, Handles;
    forall x | x in c'.nodes ensures CountOk(c', x, 0) {
      assert x in c.nodes ==> CountOk(c, x, 0);
    }
    assert HandlesOk(c') by { RootHandles(c, vfs, vp, id); }
  }

  lemma {:induction false} RootHandles(c: Cache, vfs: Vfs, vp: Vnode, id: Nid)
    requires HandlesOk(c) && id !in c.nodes
    ensures HandlesOk(MakeRoot(c, vfs, vp, id))
  {
  }

  lemma {:induction false} RootPlaces(c: Cache, fs: Fs, vfs: Vfs, vp: Vnode, id: Nid)
    requires AllPlaces(c, fs) && AllEntries(c) && id !in c.nodes
    ensures AllPlaces(MakeRoot(c, vfs, vp, id), fs) && AllEntries(MakeRoot(c, vfs, vp, id))
  {
    var c' := MakeRoot(c, vfs, vp, id);
    forall x | x in c'.nodes ensures PlaceOk(c', fs, x) {
      assert x in c.nodes ==> PlaceOk(c, fs, x);
    }
    forall x | x in c'.nodes ensures EntriesOk(c', x) {
      assert x in c.nodes ==> EntriesOk(c, x);
    }
  }

  lemma {:induction false} MakeRootKeeps(c: Cache, fs: Fs, vfs: Vfs, vp: Vnode, id: Nid)
    requires Inv(c, fs) && id !in c.nodes
    ensures Inv(MakeRoot(c, vfs, vp, id), fs)
  {
    hide AllCounts, AllPlaces, AllEntries, HandlesOk;
    RootCounts(c, vfs, vp, id);
    RootPlaces(c, fs, vfs, vp, id);
  }
}
