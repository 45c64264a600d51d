/**
  Runs of the name cache: what every run keeps, trimming down to the bound, taking a file
  system's idle names out, and the cache as an object whose methods perform the steps.
 */
module NameCacheTree {
  import opened Counting
  import opened Options
  import opened Queues
  import opened NameCache

  // ----------------------------------------------------------------------------- runs

  datatype Op =
    | OpRoot(vfs: Vfs, vp: Vnode, id: Nid)
    | OpLookup(n: Nid, name: Name, id: Nid)
    | OpRetain(n: Nid)
    | OpRelease(n: Nid)
    | OpTrim(n: Nid)

  /** Callers use the names they hold; a new node is a new object. */
  predicate Enabled(c: Cache, op: Op) {
    match op
    case OpRoot(_, _, id) => id !in c.nodes
    case OpLookup(n, _, id) => 0 < Handles(c, n) && id !in c.nodes
    case OpRetain(n) => 0 < Handles(c, n)
    case OpRelease(n) => 0 < Handles(c, n)
    case OpTrim(n) => n in c.lru
  }

  ghost function Step(c: Cache, fs: Fs, op: Op): Cache
    requires Inv(c, fs) && Enabled(c, op)
  {
    match op
    case OpRoot(vfs, vp, id) => MakeRoot(c, vfs, vp, id)
    case OpLookup(n, name, id) => (LookupKeeps(c, fs, n, name, id); Lookup(c, fs, n, name, id).0)
    case OpRetain(n) => (HeldNode(c, fs, n, ""); Take(c, n))
    case OpRelease(n) => (HeldNode(c, fs, n, ""); Release(c, n))
    case OpTrim(n) => (TrimKeeps(c, fs, n); Trim(c, n))
  }

  lemma {:induction false} StepKeeps(c: Cache, fs: Fs, op: Op)
    requires Inv(c, fs) && Enabled(c, op)
    ensures Inv(Step(c, fs, op), fs)
  {
    hide Inv, Lookup, Take, NameCache.Release, Trim, MakeRoot;
    match op
    case OpRoot(vfs, vp, id) => MakeRootKeeps(c, fs, vfs, vp, id);
    case OpLookup(n, name, id) => LookupKeeps(c, fs, n, name, id);
    case OpRetain(n) => HeldNode(c, fs, n, ""); TakeKeeps(c, fs, n);
    case OpRelease(n) => HeldNode(c, fs, n, ""); ReleaseKeeps(c, fs, n);
    case OpTrim(n) => TrimKeeps(c, fs, n);
  }

  const EMPTY := Cache(map[], [], map[], 0)

  /** `cs` are the caches a run goes through, from an empty one. */
  ghost predicate Run(fs: Fs, cs: seq<Cache>, ops: seq<Op>) {
    && |cs| == |ops| + 1 && cs[0] == EMPTY
    && forall i :: 0 <= i < |ops| ==> Inv(cs[i], fs) ==> Enabled(cs[i], ops[i]) && cs[i + 1] == Step(cs[i], fs, ops[i])
  }

  /** In every run every count is the handles plus the cached names, exactly the idle nodes
      are queued, and every cached name carries the file system's answer. */
  lemma {:induction false} RunKeeps(fs: Fs, cs: seq<Cache>, ops: seq<Op>, i: nat)
    requires Run(fs, cs, ops) && i < |cs|
    ensures Inv(cs[i], fs)
  {
    if i > 0 {
      RunKeeps(fs, cs, ops, i - 1);
      StepKeeps(cs[i - 1], fs, ops[i - 1]);
    }
  }

  // ------------------------------------------------------------------------- trimming

  /** What a trim leaves: a part of the cache, each node what it was, no handle touched. */
  ghost predicate Survives(c: Cache, c': Cache) {
    && c'.handles == c.handles && c'.nodes.Keys <= c.nodes.Keys
    && forall n :: n in c'.nodes ==>
         && c'.nodes[n].vp == c.nodes[n].vp && c'.nodes[n].vfs == c.nodes[n].vfs
         && c'.nodes[n].name == c.nodes[n].name && c'.nodes[n].parent == c.nodes[n].parent
  }

  lemma {:induction false} SurvivesOn(c0: Cache, c1: Cache, c2: Cache)
    requires Survives(c0, c1) && Survives(c1, c2)
    ensures Survives(c0, c2)
  {
  }

  lemma {:induction false} DropSurvives(c: Cache, n: Nid)
    requires n in c.nodes
    ensures Survives(c, Drop(c, n)) && c.lru <= Drop(c, n).lru && |Drop(c, n).lru| <= |c.lru| + 1
    ensures Drop(c, n).inactive - |Drop(c, n).lru| == c.inactive - |c.lru|
  {
  }

  lemma {:induction false} CutSurvives(c: Cache, n: Nid, p: Nid)
    requires Listed(c, n, p)
    ensures Survives(c, Cut(c, n)) && Cut(c, n).lru == Without(c.lru, n) && Cut(c, n).inactive == c.inactive - 1
  {
  }

  /** A trimmed node leaves the queue and its directory, if now idle, joins at the end. */
  lemma {:induction false} TrimLeaves(c: Cache, fs: Fs, i: nat)
    requires Inv(c, fs) && i < |c.lru|
    ensures var n := c.lru[i];
            && n in c.nodes && c.nodes[n].parent.Some? && c.nodes[n].parent.value in c.nodes
            && var c' := Trim(c, n);
               && Survives(c, c') && c.lru[..i] + c.lru[i + 1..] <= c'.lru
               && c'.inactive - |c'.lru| == c.inactive - |c.lru| && |c'.lru| <= |c.lru|
  {
    hide AllCounts, AllPlaces, AllEntries, HandlesOk, Trim, Drop, Cut, Listed, Survives;
    var n := c.lru[i];
    QueuedNode(c, fs, n);
    WithoutAt(c.lru, i);
    var p := c.nodes[n].parent.value;
    CutSurvives(c, n, p);
    TrimIs(c, n, p);
    DropSurvives(Cut(c, n), p);
    SurvivesOn(c, Cut(c, n), Trim(c, n));
  }

  lemma {:induction false} TrimGone(c: Cache, n: Nid)
    requires n in c.nodes && c.nodes[n].parent.Some? && c.nodes[n].parent.value in c.nodes
    requires c.nodes[n].parent.value != n
    ensures n !in Trim(c, n).nodes
  {
  }

  lemma {:induction false} ReleaseState(c: Cache, n: Nid)
    requires n in c.nodes && 0 < Handles(c, n)
    ensures var c' := NameCache.Release(c, n);
            && c' == Drop(c, n).(handles := c.handles[n := Handles(c, n) - 1])
            && c'.inactive - |c'.lru| == c.inactive - |c.lru| && Survives(c', c')
            && c'.inactive == c.inactive + B(c.nodes[n].refcnt == 1 && c.nodes[n].parent.Some?)
  {
  }

  lemma {:induction false} TakeQueue(c: Cache, n: Nid)
    requires n in c.nodes
    ensures Take(c, n) == NameCache.Retain(c, n).(handles := c.handles[n := Handles(c, n) + 1])
    ensures |Take(c, n).lru| <= |c.lru| && Take(c, n).inactive == c.inactive && Survives(Take(c, n), Take(c, n))
    ensures Survives(c, c)
  {
    WithoutSize(c.lru, n);
  }

  lemma {:induction false} TakeLeaves(c: Cache, n: Nid)
    requires n in c.nodes && LruOk(c)
    ensures Take(c, n).lru == if n in c.lru then Without(c.lru, n) else c.lru
  {
  }

  lemma {:induction false} TakeHandles(c: Cache, n: Nid, x: Nid)
    requires n in c.nodes
    ensures Handles(Take(c, n), x) == Handles(c, x) + B(x == n)
  {
  }

  /** Taking up a queued node shortens the queue by one, and the counter does not follow. */
  lemma {:induction false} TakeDrifts(c: Cache, fs: Fs, n: Nid)
    requires Inv(c, fs) && n in c.nodes
    ensures |Take(c, n).lru| == |c.lru| - B(n in c.lru) && n !in Take(c, n).lru
    ensures forall x :: Handles(Take(c, n), x) == Handles(c, x) + B(x == n)
  {
    hide AllCounts, HandlesOk, AllPlaces, AllEntries, Take, Handles;
    TakeLeaves(c, n);
    forall x ensures Handles(Take(c, n), x) == Handles(c, x) + B(x == n) {
      TakeHandles(c, n, x);
    }
    if n in c.lru {
      var i :| 0 <= i < |c.lru| && c.lru[i] == n;
      WithoutAt(c.lru, i);
    }
  }

  lemma {:induction false} EnterQueue(c: Cache, n: Nid, name: Name, id: Nid, vp: Option<Vnode>)
    requires n in c.nodes
    ensures var c' := Enter(c, n, name, id, vp);
            && c'.inactive - |c'.lru| == c.inactive - |c.lru| && Survives(c', c')
            && c'.inactive == c.inactive + B(vp.None?)
  {
  }

  lemma {:induction false} NotQueued(c: Cache, fs: Fs, id: Nid)
    requires Inv(c, fs) && id !in c.nodes
    ensures id !in c.lru
  {
  }

  // ------------------------------------------------------------- a file system's names

  /** None of the first `i` queued nodes is of the file system. */
  ghost predicate Passed(c: Cache, vfs: Vfs, i: nat) {
    i <= |c.lru| && forall j :: 0 <= j < i ==> c.lru[j] in c.nodes && c.nodes[c.lru[j]].vfs != vfs
  }

  lemma {:induction false} SurvivesSame(c: Cache, vfs: Vfs)
    ensures Survives(c, c) && Passed(c, vfs, 0)
  {
  }

  lemma {:induction false} PassedNext(c: Cache, vfs: Vfs, i: nat)
    requires Passed(c, vfs, i) && i < |c.lru| && c.lru[i] in c.nodes && c.nodes[c.lru[i]].vfs != vfs
    ensures Passed(c, vfs, i + 1)
  {
  }

  lemma {:induction false} PassedTrim(c: Cache, c': Cache, fs: Fs, vfs: Vfs, i: nat)
    requires Passed(c, vfs, i) && i < |c.lru| && Survives(c, c') && c.lru[..i] + c.lru[i + 1..] <= c'.lru && Inv(c', fs)
    ensures Passed(c', vfs, i)
  {
    forall j | 0 <= j < i ensures c'.lru[j] in c'.nodes && c'.nodes[c'.lru[j]].vfs != vfs {
      assert c'.lru[j] == (c.lru[..i] + c.lru[i + 1..])[j] == c.lru[j] && c'.lru[j] in c'.lru;
    }
  }

  /** `m` is `n` or lies below it. */
  ghost predicate Under(c: Cache, fs: Fs, m: Nid, n: Nid)
    requires AllPlaces(c, fs) && m in c.nodes
    decreases c.nodes[m].depth
  {
    m == n || (c.nodes[m].parent.Some? && (assert PlaceOk(c, fs, m); Under(c, fs, c.nodes[m].parent.value, n)))
  }

  ghost predicate HeldUnder(c: Cache, fs: Fs, n: Nid)
    requires AllPlaces(c, fs)
  {
    exists m :: m in c.nodes && 0 < Handles(c, m) && Under(c, fs, m, n)
  }

  lemma {:induction false} UnderUp(c: Cache, fs: Fs, m: Nid, x: Nid, n: Nid)
    requires AllPlaces(c, fs) && m in c.nodes && Under(c, fs, m, x) && x in c.nodes && c.nodes[x].parent == Some(n)
    ensures Under(c, fs, m, n)
    decreases c.nodes[m].depth
  {
    assert PlaceOk(c, fs, m);
    if m != x {
      UnderUp(c, fs, c.nodes[m].parent.value, x, n);
    }
  }

  ghost function Deeper(c: Cache, d: nat): set<Nid> {
    set x | x in c.nodes && d < c.nodes[x].depth
  }

  lemma {:induction false} NamedChild(c: Cache, fs: Fs, n: Nid, name: Name)
    requires AllEntries(c) && AllPlaces(c, fs) && n in c.nodes && name in c.nodes[n].entries
    ensures var x := c.nodes[n].entries[name];
            && x in c.nodes && c.nodes[x].parent == Some(n) && c.nodes[x].depth == c.nodes[n].depth + 1
            && c.nodes[x].vfs == c.nodes[n].vfs
  {
    assert EntriesOk(c, n);
    assert PlaceOk(c, fs, c.nodes[n].entries[name]);
  }

  lemma {:induction false} BusyNode(c: Cache, fs: Fs, n: Nid)
    requires Inv(c, fs) && n in c.nodes && n !in c.lru
    ensures 0 < Handles(c, n)
            || exists x :: x in c.nodes && c.nodes[x].parent == Some(n)
                           && c.nodes[x].depth == c.nodes[n].depth + 1 && c.nodes[x].vfs == c.nodes[n].vfs
  {
    assert CountOk(c, n, 0) && c.nodes[n].refcnt != 0;
    hide AllCounts, LruOk, HandlesOk;
    if Handles(c, n) == 0 {
      assert c.nodes[n].entries.Keys != {};
      var name :| name in c.nodes[n].entries.Keys;
      NamedChild(c, fs, n, name);
    }
  }

  lemma {:induction false} BusyHeld(c: Cache, fs: Fs, n: Nid, vfs: Vfs)
    requires Inv(c, fs) && n in c.nodes && c.nodes[n].vfs == vfs
    requires Passed(c, vfs, |c.lru|)
    ensures HeldUnder(c, fs, n)
    decreases Deeper(c, c.nodes[n].depth)
  {
    BusyNode(c, fs, n);
    if 0 < Handles(c, n) {
      assert Under(c, fs, n, n);
    } else {
      var x :| x in c.nodes && c.nodes[x].parent == Some(n)
               && c.nodes[x].depth == c.nodes[n].depth + 1 && c.nodes[x].vfs == vfs;
      assert x in Deeper(c, c.nodes[n].depth) && x !in Deeper(c, c.nodes[x].depth);
      BusyHeld(c, fs, x, vfs);
      var m :| m in c.nodes && 0 < Handles(c, m) && Under(c, fs, m, x);
      UnderUp(c, fs, m, x, n);
    }
  }

  // ----------------------------------------------------------------------- the object

  /** The first `k` of the queue are gone, and the others are still its front, in order. */
  ghost predicate TrimmedTo(was: seq<Nid>, k: nat, nodes: map<Nid, Node>, lru: seq<Nid>)
    requires k <= |was|
  {
    was[k..] <= lru && forall j :: 0 <= j < k ==> was[j] !in nodes
  }

  lemma {:induction false} TrimmedNone(lru: seq<Nid>, nodes: map<Nid, Node>)
    ensures TrimmedTo(lru, 0, nodes, lru)
  {
  }

  lemma {:induction false} TrimmedNext(was: seq<Nid>, k: nat, nodes: map<Nid, Node>, lru: seq<Nid>,
                                       nodes': map<Nid, Node>, lru': seq<Nid>)
    requires k <= |was| && TrimmedTo(was, k, nodes, lru) && lru != [] && lru[1..] <= lru' && lru[0] !in nodes'
    requires nodes'.Keys <= nodes.Keys
    ensures if k < |was| then TrimmedTo(was, k + 1, nodes', lru') else TrimmedTo(was, k, nodes', lru')
  {
    assert forall n :: n in nodes' ==> n in nodes'.Keys && n in nodes;
    if k < |was| {
      assert was[k] == was[k..][0] == lru[0] && was[k..][1..] == was[k + 1..];
    }
  }

  class NameTree {
    var nodes: map<Nid, Node>
    var lru: seq<Nid>
    var inactive: int
    ghost var handles: map<Nid, nat>
    ghost const fs: Fs
    const maxInactive: nat

    ghost function State(): Cache
      reads this
    {
      Cache(nodes, lru, handles, inactive)
    }

    /** How far the counter of inactive names is ahead of the queue. */
    ghost function Drift(): int
      reads this
    {
      inactive - |lru|
    }

    ghost predicate Sound()
      reads this
    {
      Inv(State(), fs) && 0 <= Drift()
    }

    /** At rest, with the LRU lock free, the counter is within its bound. */
    ghost predicate Valid()
      reads this
    {
      Sound() && inactive <= maxInactive
    }

    constructor (ghost fs: Fs, maxInactive: nat)
      ensures Valid() && State() == EMPTY && this.fs == fs && this.maxInactive == maxInactive
    {
      this.fs, this.maxInactive := fs, maxInactive;
      nodes, lru, inactive := map[], [], 0;
      handles := map[];
    }

    /** `nc_make_root`. */
    method AddRoot(vfs: Vfs, vp: Vnode, id: Nid)
      requires Valid() && id !in nodes
      modifies this
      ensures Valid() && State() == MakeRoot(old(State()), vfs, vp, id) && Drift() == old(Drift())
      ensures nodes == old(nodes)[id := Node(1, Some(vp), vfs, "", None, map[], 0)] && handles == old(handles)[id := 1]
    {
      MakeRootKeeps(State(), fs, vfs, vp, id);
      hide Inv;
      nodes := nodes[id := Node(1, Some(vp), vfs, "", None, map[], 0)];
      handles := handles[id := 1];
    }

    method Retain(n: Nid)
      requires n in nodes
      modifies this`nodes, this`lru
      ensures State() == NameCache.Retain(old(State()), n)
    {
      var nd := nodes[n];
      nodes := nodes[n := nd.(refcnt := nd.refcnt + 1)];
      if nd.refcnt == 0 {
        lru := Without(lru, n);
      }
    }

    /** `nc_retain` for a caller: one handle more, to this node and to no other, and off
        the queue. If it was queued the counter stays, and has drifted by one. */
    method Hold(n: Nid)
      requires Valid() && n in nodes && nodes[n].vp.Some?
      modifies this
      ensures Valid() && State() == Take(old(State()), n)
      ensures Handles(State(), n) == old(Handles(State(), n)) + 1 && n !in lru
      ensures forall x :: x != n ==> Handles(State(), x) == old(Handles(State(), x))
      ensures Drift() == old(Drift()) + B(n in old(lru))
    {
      hide Inv, Take;
      ghost var c := State();
      TakeKeeps(c, fs, n);
      TakeQueue(c, n);
      TakeDrifts(c, fs, n);
      Retain(n);
      handles := handles[n := Handles(c, n) + 1];
    }

    method ReleaseInternal(n: Nid)
      requires n in nodes
      modifies this`nodes, this`lru, this`inactive
      ensures State() == Drop(old(State()), n)
    {
      var nd := nodes[n];
      nodes := nodes[n := nd.(refcnt := nd.refcnt - 1)];
      if nd.refcnt == 1 {
        if nd.parent.None? {
          nodes := nodes - {n};
        } else {
          lru := lru + [n];
          inactive := inactive + 1;
        }
      }
      assert old(nodes) - {n} == old(nodes)[n := nd.(refcnt := nd.refcnt - 1)] - {n};
    }

    /** Off the queue first, as both callers do. */
    method DoTrim(n: Nid)
      requires n in nodes && nodes[n].parent.Some? && nodes[n].parent.value in nodes && nodes[n].parent.value != n
      modifies this`nodes, this`lru, this`inactive
      ensures State() == Trim(old(State()), n)
    {
      lru := Without(lru, n);
      var nd := nodes[n];
      var p := nd.parent.value;
      nodes := nodes[p := nodes[p].(entries := nodes[p].entries - {nd.name})];
      nodes := nodes - {n};
      inactive := inactive - 1;
      ReleaseInternal(p);
    }

    method TrimAt(i: nat)
      requires Sound() && i < |lru|
      modifies this`nodes, this`lru, this`inactive
      ensures Sound() && Survives(old(State()), State()) && nodes.Keys < old(nodes.Keys)
      ensures old(lru[..i] + lru[i + 1..]) <= lru && Drift() == old(Drift()) && inactive <= old(inactive)
      ensures old(lru[i]) !in nodes
    {
      ghost var c := State();
      TrimKeeps(c, fs, lru[i]);
      TrimLeaves(c, fs, i);
      QueuedNode(c, fs, lru[i]);
      TrimGone(c, lru[i]);
      hide Inv, Survives, Trim;
      DoTrim(lru[i]);
    }

    /** Trims from the front of the queue until the counter is within its bound, or the
        queue has run out, which it does exactly when the drift is beyond the bound. */
    method TrimLru() returns (ok: bool)
      requires Sound()
      modifies this`nodes, this`lru, this`inactive
      ensures ok <==> old(Drift()) <= maxInactive
      ensures ok ==> Valid()
      ensures old(inactive) <= maxInactive ==> State() == old(State())
      ensures Sound() && Survives(old(State()), State()) && Drift() == old(Drift())
      ensures exists k :: 0 <= k <= |old(lru)| && TrimmedTo(old(lru), k, nodes, lru)
    {
      hide Inv, TrimmedTo;
      ghost var k := 0;
      TrimmedNone(lru, nodes);
      while inactive > maxInactive
        invariant Sound() && Survives(old(State()), State()) && Drift() == old(Drift())
        invariant k <= |old(lru)| && TrimmedTo(old(lru), k, nodes, lru)
        invariant old(inactive) <= maxInactive ==> State() == old(State())
        decreases nodes.Keys
      {
        if lru == [] {
          return false;
        }
        ghost var c := State();
        TrimAt(0);
        SurvivesOn(old(State()), c, State());
        TrimmedNext(old(lru), k, c.nodes, c.lru, nodes, lru);
        k := if k < |old(lru)| then k + 1 else k;
      }
      return true;
    }

    /** The trim always finds what it looks for, as the drift is within the bound. */
    method Release(n: Nid)
      requires Valid() && 0 < Handles(State(), n) && n in nodes
      modifies this
      ensures Valid() && Drift() == old(Drift()) && Survives(NameCache.Release(old(State()), n), State())
      ensures NameCache.Release(old(State()), n).inactive <= maxInactive ==>
                State() == NameCache.Release(old(State()), n)
      ensures Handles(State(), n) == old(Handles(State(), n)) - 1
      ensures forall x :: x != n ==> Handles(State(), x) == old(Handles(State(), x))
    {
      hide Inv, Survives, Drop, NameCache.Release;
      ghost var c := State();
      ReleaseKeeps(c, fs, n);
      ReleaseState(c, n);
      var queued := nodes[n].refcnt == 1 && nodes[n].parent.Some?;
      ReleaseInternal(n);
      handles := handles[n := Handles(c, n) - 1];
      if queued && inactive > maxInactive {
        var ok := TrimLru();
        assert ok;
      }
    }

    /** A name not cached yet, with what the directory's vnode answers. */
    method EnterName(n: Nid, name: Name, id: Nid, vp: Option<Vnode>)
      requires n in nodes && 0 < nodes[n].refcnt && id !in nodes
      modifies this
      ensures State() == Enter(old(State()), n, name, id, vp)
    {
      var nd := nodes[n];
      Retain(n);
      nodes := nodes[n := nodes[n].(entries := nd.entries[name := id])];
      assert nodes == old(nodes)[n := nd.(refcnt := nd.refcnt + 1, entries := nd.entries[name := id])];
      if vp.Some? {
        nodes := nodes[id := Node(1, vp, nd.vfs, name, Some(n), map[], nd.depth + 1)];
        handles := handles[id := 1];
      } else {
        nodes := nodes[id := Node(0, None, nd.vfs, name, Some(n), map[], nd.depth + 1)];
        lru := lru + [id];
        inactive := inactive + 1;
      }
    }

    /** The answer is the file system's; a name found queued makes the counter drift. */
    method Lookup(n: Nid, name: Name, id: Nid, vp: Option<Vnode>) returns (r: Result)
      requires Valid() && 0 < Handles(State(), n) && id !in nodes
      requires n in nodes && nodes[n].vp.Some? && vp == fs(nodes[n].vp.value, name)
      modifies this
      ensures name in old(nodes[n].entries) ==> old(nodes[n].entries[name] in nodes)
      ensures r == NameCache.Lookup(old(State()), fs, n, name, id).1
      ensures Valid() && Survives(NameCache.Lookup(old(State()), fs, n, name, id).0, State())
      ensures vp.Some? ==> State() == NameCache.Lookup(old(State()), fs, n, name, id).0
      ensures Drift() == old(Drift()) + B(r.Found? && r.n in old(lru))
    {
      hide Inv, Survives, Enter, NameCache.Lookup, Take;
      ghost var c := State();
      HeldNode(c, fs, n, name);
      LookupKeeps(c, fs, n, name, id);
      LookupIs(c, fs, n, name, id);
      if name in nodes[n].entries {
        var child := nodes[n].entries[name];
        TakeQueue(c, child);
        if nodes[child].vp.None? {
          r := NotFound;
        } else {
          Hold(child);
          r := Found(child);
        }
      } else {
        EnterQueue(c, n, name, id, vp);
        NotQueued(c, fs, id);
        EnterName(n, name, id, vp);
        r := if vp.Some? then Found(id) else NotFound;
        if vp.None? && inactive > maxInactive {
          var ok := TrimLru();
          assert ok;
        }
      }
    }

    /** One pass over the queue: the successor is noted before a node is trimmed, so a
        directory queued by trimming the last node is not visited. */
    method SweepVfs(vfs: Vfs) returns (found: bool)
      requires Valid()
      modifies this`nodes, this`lru, this`inactive
      ensures Valid() && Survives(old(State()), State()) && Drift() == old(Drift())
      ensures found ==> nodes.Keys < old(nodes.Keys)
      ensures !found ==> nodes.Keys == old(nodes.Keys) && Passed(State(), vfs, |lru|)
    {
      hide Inv, Survives, Passed;
      found := false;
      var i := 0;
      SurvivesSame(State(), vfs);
      while i < |lru|
        invariant Valid() && Survives(old(State()), State()) && Drift() == old(Drift()) && i <= |lru|
        invariant Passed(State(), vfs, i)
        invariant if found then nodes.Keys < old(nodes.Keys) else nodes.Keys == old(nodes.Keys)
        decreases nodes.Keys, |lru| - i
      {
        var n := lru[i];
        var last := i == |lru| - 1;
        ghost var c := State();
        QueuedNode(c, fs, n);
        if nodes[n].vfs == vfs {
          found := true;
          TrimAt(i);
          SurvivesOn(old(State()), c, State());
          PassedTrim(c, State(), fs, vfs, i);
          if last {
            return;
          }
        } else {
          PassedNext(c, vfs, i);
          i := i + 1;
        }
      }
    }

    /** Ends, and leaves of the file system only nodes with a handle at or below them. */
    method RemoveVfs(vfs: Vfs)
      requires Valid()
      modifies this`nodes, this`lru, this`inactive
      ensures Valid() && Survives(old(State()), State()) && Drift() == old(Drift())
      ensures forall n :: n in nodes && nodes[n].vfs == vfs ==> HeldUnder(State(), fs, n)
    {
      hide AllCounts, AllPlaces, AllEntries, HandlesOk, LruOk, Survives;
      var found := true;
      SurvivesSame(State(), vfs);
      while found
        invariant Valid() && Survives(old(State()), State()) && Drift() == old(Drift())
                  && (!found ==> Passed(State(), vfs, |lru|))
        decreases nodes.Keys, found
      {
        ghost var c := State();
        found := SweepVfs(vfs);
        SurvivesOn(old(State()), c, State());
      }
      forall n | n in nodes && nodes[n].vfs == vfs ensures HeldUnder(State(), fs, n) {
        BusyHeld(State(), fs, n, vfs);
      }
    }
  }

  /** A counter that has drifted to its bound leaves no room: no idle name is kept. */
  lemma {:induction false} NoRoomLeft(t: NameTree, n: Nid)
    requires t.Valid() && t.Drift() == t.maxInactive && n in t.nodes
    ensures t.lru == [] && 0 < t.nodes[n].refcnt
  {
    assert CountOk(t.State(), n, 0);
  }

  /** With the bound the kernel starts with, one name looked up, released and looked up
      again is enough for that. */
  method LoseRoom(ghost fs: Fs) returns (t: NameTree)
    requires fs(0, "a") == Some(1)
    ensures t.Valid() && t.maxInactive == 1 && t.Drift() == t.maxInactive
  {
    t := new NameTree(fs, 1);
    t.AddRoot(0, 0, 0);
    ghost var c1 := t.State();
    var r := t.Lookup(0, "a", 1, Some(1));
    ghost var c2 := t.State();
    FirstFound(c1, c2, fs);
    t.Release(1);
    ghost var c3 := t.State();
    ThenIdle(c2, c3);
    r := t.Lookup(0, "a", 2, Some(1));
  }

  lemma {:induction false} FirstFound(c1: Cache, c2: Cache, fs: Fs)
    requires fs(0, "a") == Some(1) && c1 == MakeRoot(EMPTY, 0, 0, 0) && c2 == NameCache.Lookup(c1, fs, 0, "a", 1).0
    ensures c2.nodes ==
            map[0 := Node(2, Some(0), 0, "", None, map["a" := 1], 0), 1 := Node(1, Some(1), 0, "a", Some(0), map[], 1)]
    ensures c2.lru == [] && c2.handles == map[0 := 1, 1 := 1] && c2.inactive == 0
  {
  }

  lemma {:induction false} ThenIdle(c2: Cache, c3: Cache)
    requires c2.nodes ==
             map[0 := Node(2, Some(0), 0, "", None, map["a" := 1], 0), 1 := Node(1, Some(1), 0, "a", Some(0), map[], 1)]
    requires c2.lru == [] && c2.handles == map[0 := 1, 1 := 1] && c2.inactive == 0
    ensures 1 in c2.nodes && 0 < Handles(c2, 1) && NameCache.Release(c2, 1).inactive == 1
    ensures c3 == NameCache.Release(c2, 1) ==> c3.lru == [1] && 0 < Handles(c3, 0) && 2 !in c3.nodes
    ensures c3 == NameCache.Release(c2, 1) ==>
              0 in c3.nodes && c3.nodes[0] == c2.nodes[0] && 1 in c3.nodes && c3.nodes[1].vp == Some(1)
  {
  }
}
