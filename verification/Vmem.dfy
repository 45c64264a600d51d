/**
  The lists a VMem arena keeps beside its segment queue: 64 power-of-two
  freelists and 16 hash buckets of segment tags. `Indexed` says that a list
  table holds exactly the tags a bucket function assigns to it; the lemmas say
  how one list edit follows one change of a tag.
 */
module VmemIndex {
  import opened Queues
  import opened Numbers
  import opened VmemSegments

  type Tag = nat
  type Tags = map<Tag, Seg>
  type Lists = seq<seq<Tag>>

  const NFREELISTS := 64
  const NBUCKETS := 16

  /** floor(log2 size), which the source computes from the leading zero count. */
  function FreelistIndex(size: nat): (k: nat)
    requires 0 < size
  {
    if size < 2 then 0 else 1 + FreelistIndex(size / 2)
  }

  lemma {:induction false} FreelistIndexIsLog(size: nat)
    requires 0 < size
    ensures Pow2(FreelistIndex(size)) <= size < 2 * Pow2(FreelistIndex(size))
  {
    if 2 <= size {
      FreelistIndexIsLog(size / 2);
    }
  }

  /** A larger size never has a smaller index, so a search that starts at the
      index of the request misses no segment that is large enough. */
  lemma {:induction false} FreelistIndexMonotone(a: nat, b: nat)
    requires 0 < a <= b
    ensures FreelistIndex(a) <= FreelistIndex(b)
  {
    FreelistIndexIsLog(a);
    FreelistIndexIsLog(b);
    if FreelistIndex(b) < FreelistIndex(a) {
      Pow2Monotone(FreelistIndex(b) + 1, FreelistIndex(a));
    }
  }

  lemma {:induction false} FreelistIndexBound(size: nat)
    requires 0 < size < TOP
    ensures FreelistIndex(size) < NFREELISTS
  {
    FreelistIndexIsLog(size);
    if NFREELISTS <= FreelistIndex(size) {
      Pow2Monotone(NFREELISTS, FreelistIndex(size));
      Pow2Of64();
    }
  }

  /** The freelist of a tag, or -1 when the segment is not free. */
  function FreeBucket(s: Seg): int {
    if s.IsFree() && 0 < s.size then FreelistIndex(s.size) else -1
  }

  /** The hash bucket of a tag, or -1 when the segment is not allocated. */
  function HashBucket(hash: nat -> nat, s: Seg): int {
    if s.IsAllocated() then hash(s.base) % NBUCKETS else -1
  }

  /** List `k` holds, once each, exactly the tags whose bucket is `k`. */
  ghost predicate Indexed(tags: Tags, lists: Lists, bucket: Seg -> int) {
    && (forall k :: 0 <= k < |lists| ==> Distinct(lists[k]))
    && (forall k, t {:trigger t in lists[k]} :: 0 <= k < |lists| && t in lists[k] ==> t in tags && bucket(tags[t]) == k)
    && (forall t {:trigger tags[t]} :: t in tags && 0 <= bucket(tags[t])
          ==> bucket(tags[t]) < |lists| && t in lists[bucket(tags[t])])
  }

  function Listed(lists: Lists, k: int, t: Tag): Lists
    requires 0 <= k < |lists|
  {
    lists[k := [t] + lists[k]]
  }

  function Unlisted(lists: Lists, k: int, t: Tag): Lists
    requires 0 <= k < |lists|
  {
    lists[k := Without(lists[k], t)]
  }

  lemma {:induction false} ListTag(tags: Tags, lists: Lists, bucket: Seg -> int, t: Tag, s: Seg)
    requires Indexed(tags, lists, bucket)
    requires t in tags ==> bucket(tags[t]) < 0
    requires 0 <= bucket(s) < |lists|
    ensures Indexed(tags[t := s], Listed(lists, bucket(s), t), bucket)
  {
    var k0 := bucket(s);
    assert t !in lists[k0];
  }

  lemma {:induction false} UnlistTag(tags: Tags, lists: Lists, bucket: Seg -> int, t: Tag, tags': Tags)
    requires Indexed(tags, lists, bucket)
    requires t in tags && 0 <= bucket(tags[t])
    requires tags' - {t} == tags - {t} && (t in tags' ==> bucket(tags'[t]) < 0)
    ensures bucket(tags[t]) < |lists|
    ensures Indexed(tags', Unlisted(lists, bucket(tags[t]), t), bucket)
  {
    WithoutDistinct(lists[bucket(tags[t])], t);
    assert forall x :: x != t ==> (x in tags' <==> x in tags' - {t}) && (x in tags <==> x in tags - {t});
    assert forall x :: x != t && x in tags' ==> tags'[x] == (tags' - {t})[x] && tags[x] == (tags - {t})[x];
  }

  lemma {:induction false} OtherTag(tags: Tags, lists: Lists, bucket: Seg -> int, t: Tag, tags': Tags)
    requires Indexed(tags, lists, bucket)
    requires tags' - {t} == tags - {t}
    requires (if t in tags then bucket(tags[t]) else -1) == (if t in tags' then bucket(tags'[t]) else -1)
             || ((t in tags ==> bucket(tags[t]) < 0) && (t in tags' ==> bucket(tags'[t]) < 0))
    ensures Indexed(tags', lists, bucket)
  {
    assert forall x :: x != t ==> (x in tags' <==> x in tags' - {t}) && (x in tags <==> x in tags - {t});
    assert forall x :: x != t && x in tags' ==> tags'[x] == (tags' - {t})[x] && tags[x] == (tags - {t})[x];
  }

  // ------------------------------------------------------------------ queues

  ghost predicate Covered(tags: Tags, queue: seq<Tag>) {
    forall t :: t in queue ==> t in tags
  }

  /** The segments a tag queue stands for. */
  function View(tags: Tags, queue: seq<Tag>): (q: seq<Seg>)
    requires forall t :: t in queue ==> t in tags
    ensures |q| == |queue|
    ensures forall i {:trigger q[i]} :: 0 <= i < |queue| ==> q[i] == tags[queue[i]]
  {
    seq(|queue|, i requires 0 <= i < |queue| => tags[queue[i]])
  }

  function IndexOf(l: seq<Tag>, t: Tag): (i: nat)
    requires t in l
    ensures i < |l| && l[i] == t
  {
    if l[0] == t then 0 else 1 + IndexOf(l[1..], t)
  }

  /** The tags of the span markers, in queue order. */
  function SpanTags(tags: Tags, queue: seq<Tag>): (r: seq<Tag>)
    requires forall t :: t in queue ==> t in tags
  {
    if queue == [] then []
    else if tags[queue[0]].IsSpan() then [queue[0]] + SpanTags(tags, queue[1..])
    else SpanTags(tags, queue[1..])
  }

  lemma {:induction false} SpanTagsConcat(tags: Tags, a: seq<Tag>, b: seq<Tag>)
    requires Covered(tags, a) && Covered(tags, b)
    ensures SpanTags(tags, a + b) == SpanTags(tags, a) + SpanTags(tags, b)
  {
    if a == [] {
      assert a + b == b;
    } else {
      SpanTagsConcat(tags, a[1..], b);
      assert (a + b)[1..] == a[1..] + b;
    }
  }

  lemma {:induction false} SpanTagsSame(tags: Tags, tags': Tags, a: seq<Tag>)
    requires Covered(tags, a)
    requires forall t :: t in a ==> t in tags' && tags'[t].IsSpan() == tags[t].IsSpan()
    ensures SpanTags(tags', a) == SpanTags(tags, a)
  {
    if a != [] {
      SpanTagsSame(tags, tags', a[1..]);
    }
  }

  // ------------------------------------------------------ edits of the queue

  /** The queue lists every tag once. */
  ghost predicate Linked(tags: Tags, queue: seq<Tag>) {
    (forall t :: t in tags <==> t in queue) && Distinct(queue)
  }

  function InsertAt<T>(q: seq<T>, p: nat, x: T): (r: seq<T>)
    requires p <= |q|
    ensures |r| == |q| + 1
    ensures forall k {:trigger r[k]} :: 0 <= k < |r| ==> r[k] == if k < p then q[k] else if k == p then x else q[k - 1]
  {
    q[..p] + [x] + q[p..]
  }

  function RemoveAt<T>(q: seq<T>, p: nat): (r: seq<T>)
    requires p < |q|
    ensures |r| == |q| - 1
    ensures forall k {:trigger r[k]} :: 0 <= k < |r| ==> r[k] == if k < p then q[k] else q[k + 1]
  {
    q[..p] + q[p + 1..]
  }

  lemma {:induction false} InsertMembers(q: seq<Tag>, p: nat, x: Tag)
    requires p <= |q|
    ensures forall t :: t in InsertAt(q, p, x) <==> t == x || t in q
  {
    assert forall t :: t in q <==> t in q[..p] + q[p..] by { assert q == q[..p] + q[p..]; }
  }

  lemma {:induction false} RemoveMembers(q: seq<Tag>, i: nat)
    requires i < |q| && Distinct(q)
    ensures forall t :: t in RemoveAt(q, i) <==> t != q[i] && t in q
  {
    assert q == q[..i] + ([q[i]] + q[i + 1..]);
    assert q[i] !in q[..i] && q[i] !in q[i + 1..];
  }

  lemma {:induction false} InsertDistinct(q: seq<Tag>, p: nat, x: Tag)
    requires Distinct(q) && p <= |q| && x !in q
    ensures Distinct(InsertAt(q, p, x))
  {
    assert forall k :: 0 <= k < |q| ==> q[k] in q;
  }

  lemma {:induction false} RemoveDistinct(q: seq<Tag>, i: nat)
    requires Distinct(q) && i < |q|
    ensures Distinct(RemoveAt(q, i))
  {
  }

  lemma {:induction false} InsertTag(tags: Tags, queue: seq<Tag>, p: nat, x: Tag, s: Seg)
    requires Linked(tags, queue) && p <= |queue| && x !in tags
    ensures Linked(tags[x := s], InsertAt(queue, p, x))
    ensures View(tags[x := s], InsertAt(queue, p, x)) == InsertAt(View(tags, queue), p, s)
  {
    InsertMembers(queue, p, x);
    InsertDistinct(queue, p, x);
    assert forall k :: 0 <= k < |queue| ==> queue[k] in queue;
  }

  lemma {:induction false} RemoveTag(tags: Tags, queue: seq<Tag>, i: nat)
    requires Linked(tags, queue) && i < |queue|
    ensures Linked(tags - {queue[i]}, RemoveAt(queue, i))
    ensures View(tags - {queue[i]}, RemoveAt(queue, i)) == RemoveAt(View(tags, queue), i)
  {
    RemoveMembers(queue, i);
    RemoveDistinct(queue, i);
    assert forall k :: 0 <= k < |queue| ==> queue[k] in queue;
  }

  lemma {:induction false} ChangeTag(tags: Tags, queue: seq<Tag>, i: nat, s: Seg)
    requires Linked(tags, queue) && i < |queue|
    ensures Linked(tags[queue[i] := s], queue)
    ensures View(tags[queue[i] := s], queue) == View(tags, queue)[i := s]
  {
    assert forall k :: 0 <= k < |queue| ==> queue[k] in queue;
  }

  lemma {:induction false} SpansInsert(tags: Tags, tags': Tags, queue: seq<Tag>, p: nat, x: Tag)
    requires Covered(tags, queue) && p <= |queue| && x !in tags
    requires x in tags' && tags' == tags[x := tags'[x]]
    ensures Covered(tags', InsertAt(queue, p, x))
    ensures SpanTags(tags', InsertAt(queue, p, x)) ==
            SpanTags(tags, queue[..p]) + (if tags'[x].IsSpan() then [x] else []) + SpanTags(tags, queue[p..])
    ensures SpanTags(tags, queue) == SpanTags(tags, queue[..p]) + SpanTags(tags, queue[p..])
  {
    InsertMembers(queue, p, x);
    var a, b := queue[..p], queue[p..];
    assert Covered(tags, a) && Covered(tags, b);
    assert queue == a + b;
    SpanTagsConcat(tags, a, b);
    SpanTagsSame(tags, tags', a);
    SpanTagsSame(tags, tags', b);
    SpanTagsConcat(tags', a, [x]);
    SpanTagsConcat(tags', a + [x], b);
  }

  lemma {:induction false} SpansRemove(tags: Tags, tags': Tags, queue: seq<Tag>, i: nat)
    requires Covered(tags, queue) && Distinct(queue) && i < |queue| && !tags[queue[i]].IsSpan()
    requires tags' == tags - {queue[i]}
    ensures Covered(tags', RemoveAt(queue, i))
    ensures SpanTags(tags', RemoveAt(queue, i)) == SpanTags(tags, queue)
  {
    RemoveMembers(queue, i);
    var a, b, x := queue[..i], queue[i + 1..], queue[i];
    assert x !in a && x !in b;
    assert Covered(tags, a) && Covered(tags, b);
    SpanTagsSame(tags, tags', a);
    SpanTagsSame(tags, tags', b);
    SpanTagsConcat(tags', a, b);
    SpanTagsConcat(tags, [x], b);
    SpanTagsConcat(tags, a, [x] + b);
    assert queue == a + ([x] + b);
  }

  lemma {:induction false} SpanTagsMembers(tags: Tags, queue: seq<Tag>)
    requires Covered(tags, queue)
    ensures forall t :: t in SpanTags(tags, queue) <==> t in queue && tags[t].IsSpan()
  {
    if queue != [] {
      SpanTagsMembers(tags, queue[1..]);
      assert queue == [queue[0]] + queue[1..];
    }
  }

  lemma {:induction false} SpanTagsDistinct(tags: Tags, queue: seq<Tag>)
    requires Covered(tags, queue) && Distinct(queue)
    ensures Distinct(SpanTags(tags, queue))
  {
    if queue != [] {
      SpanTagsDistinct(tags, queue[1..]);
      SpanTagsMembers(tags, queue[1..]);
      assert forall j :: 0 <= j < |queue| - 1 ==> queue[1..][j] == queue[j + 1];
    }
  }

  /** Where the `k`-th span marker stands in the queue. */
  lemma {:induction false} SpanPosition(tags: Tags, queue: seq<Tag>, k: nat)
    requires Covered(tags, queue) && Distinct(queue) && k < |SpanTags(tags, queue)|
    ensures SpanTags(tags, queue)[k] in queue
    ensures var p := IndexOf(queue, SpanTags(tags, queue)[k]);
            SpanTags(tags, queue[..p]) == SpanTags(tags, queue)[..k]
            && SpanTags(tags, queue[p..]) == SpanTags(tags, queue)[k..]
  {
    var spans := SpanTags(tags, queue);
    assert spans[k] in spans;
    SpanTagsMembers(tags, queue);
    SpanTagsDistinct(tags, queue);
    var p := IndexOf(queue, spans[k]);
    var a, b := queue[..p], queue[p..];
    assert queue == a + b;
    SpanTagsConcat(tags, a, b);
    var n := |SpanTags(tags, a)|;
    assert spans[n] == SpanTags(tags, b)[0] == spans[k];
    assert n == k;
  }

  lemma {:induction false} SpansChange(tags: Tags, queue: seq<Tag>, i: nat, s: Seg)
    requires Linked(tags, queue) && i < |queue| && !tags[queue[i]].IsSpan() && !s.IsSpan()
    ensures SpanTags(tags[queue[i] := s], queue) == SpanTags(tags, queue)
  {
    SpanTagsSame(tags, tags[queue[i] := s], queue);
  }
}

module Vmem {
  import opened Queues
  import opened Numbers
  import opened VmemSegments
  import opened VmemIndex

  datatype AllocResult = Allocated(addr: nat) | Exhausted | Misplaced
  datatype FreeResult = Freed(size: nat) | Fatal

  function HashFn(hash: nat -> nat): Seg -> int {
    (s: Seg) => HashBucket(hash, s)
  }

  // ------------------------------------------- edits that make up a split/merge

  function InsertIf(q: seq<Seg>, wanted: bool, p: nat, s: Seg): seq<Seg>
    requires p <= |q|
  {
    if wanted then InsertAt(q, p, s) else q
  }

  /** `split_seg` as the edits it makes: mark the segment, insert what remains on
      its left, insert what remains on its right. */
  function SplitEdits(q: seq<Seg>, i: nat, addr: nat, size: nat): seq<Seg>
    requires i < |q| && q[i].base <= addr && addr + size <= q[i].End()
  {
    var f := q[i];
    var q2 := InsertIf(q[i := Seg(Kind.Allocated, addr, size)], f.base < addr, i, Seg(Free, f.base, addr - f.base));
    InsertIf(q2, addr + size < f.End(), if f.base < addr then i + 2 else i + 1,
             Seg(Free, addr + size, f.End() - (addr + size)))
  }

  lemma {:induction false} InsertIfConcat(pre: seq<Seg>, post: seq<Seg>, wanted: bool, s: Seg)
    ensures InsertIf(pre + post, wanted, |pre|, s) == pre + (If(wanted, s) + post)
  {
    assert (pre + post)[..|pre|] == pre && (pre + post)[|pre|..] == post;
  }

  lemma {:induction false} Reassociate(pre: seq<Seg>, l: seq<Seg>, a: seq<Seg>, r: seq<Seg>, post: seq<Seg>)
    ensures pre + (l + (a + post)) == (pre + (l + a)) + post
    ensures (pre + (l + a)) + (r + post) == pre + ((l + (a + r)) + post)
  {
  }

  function If(wanted: bool, s: Seg): seq<Seg> {
    if wanted then [s] else []
  }

  lemma {:induction false} SplitAsEdits(q: seq<Seg>, i: nat, addr: nat, size: nat)
    requires i < |q| && CanHold(q[i], addr, size)
    ensures SplitEdits(q, i, addr, size) == Split(q, i, addr, size)
  {
    var f, a := q[i], Seg(Kind.Allocated, addr, size);
    var pre, post := q[..i], q[i + 1..];
    var left, right := Seg(Free, f.base, addr - f.base), Seg(Free, addr + size, f.End() - (addr + size));
    var l, r := If(f.base < addr, left), If(addr + size < f.End(), right);
    assert q[i := a] == pre + ([a] + post);
    InsertIfConcat(pre, [a] + post, f.base < addr, left);
    var front := pre + (l + [a]);
    Reassociate(pre, l, [a], r, post);
    InsertIfConcat(front, post, addr + size < f.End(), right);
    assert |front| == if f.base < addr then i + 2 else i + 1;
    assert Pieces(f, addr, size) == l + ([a] + r);
    hide InsertIf, InsertAt, If, Pieces;
    assert SplitEdits(q, i, addr, size) == front + (r + post);
  }

  function JoinLeft(q: seq<Seg>, i: nat): seq<Seg>
    requires 0 < i < |q|
  {
    RemoveAt(q[i - 1 := Seg(Free, q[i - 1].base, q[i - 1].size + q[i].size)], i)
  }

  function JoinRight(q: seq<Seg>, i: nat): seq<Seg>
    requires i + 1 < |q|
  {
    RemoveAt(q[i + 1 := Seg(Free, q[i].base, q[i + 1].size + q[i].size)], i)
  }

  /** The end of `vmem_xfree` as the edits it makes. */
  function MergeEdits(q: seq<Seg>, i: nat): seq<Seg>
    requires 0 < i < |q|
  {
    if q[i - 1].IsFree() then
      var q1 := JoinLeft(q, i);
      if i < |q1| && q1[i].IsFree() then JoinRight(q1, i - 1) else q1
    else if i + 1 < |q| && q[i + 1].IsFree() then JoinRight(q, i)
    else q[i := Seg(Free, q[i].base, q[i].size)]
  }

  lemma {:induction false} CoalesceAsEdits(q: seq<Seg>, i: nat)
    requires 0 < i < |q|
    ensures MergeEdits(q, i) == Coalesce(q, i)
  {
    MergedSize(q, i);
    var hi := AfterMerged(q, i);
    assert hi == i + 2 ==> q[i + 1..hi] == [q[i + 1]];
    assert hi == i + 1 ==> q[i + 1..hi] == [];
    if q[i - 1].IsFree() {
      var q1 := JoinLeft(q, i);
      if i < |q1| && q1[i].IsFree() {
        assert JoinRight(q1, i - 1) == Coalesce(q, i);
      } else {
        assert q1 == Coalesce(q, i);
      }
    } else if i + 1 < |q| && q[i + 1].IsFree() {
      assert JoinRight(q, i) == Coalesce(q, i);
    } else {
      assert q[i := Seg(Free, q[i].base, q[i].size)] == Coalesce(q, i);
    }
  }

  lemma {:induction false} MergedBounds(q: seq<Seg>, i: nat)
    requires Arena(q, 0) && 0 < i < |q| && q[i].IsAllocated()
    requires forall s :: s in q ==> s.End() < TOP
    ensures 0 < q[i].size < TOP
    ensures q[i - 1].IsFree() ==> 0 < q[i - 1].size && q[i - 1].size + q[i].size < TOP
    ensures i + 1 < |q| && q[i + 1].IsFree() ==> 0 < q[i + 1].size && q[i].size + q[i + 1].size < TOP
    ensures i + 1 < |q| && q[i - 1].IsFree() && q[i + 1].IsFree() ==>
              q[i - 1].size + q[i].size + q[i + 1].size < TOP
  {
    ArenaBases(q, 0);
    assert q[i] in q && q[i - 1] in q;
    if q[i - 1].IsFree() {
      NeighboursMeet(q, i - 1, 0);
    }
    if i + 1 < |q| && q[i + 1].IsFree() {
      assert q[i + 1] in q;
      NeighboursMeet(q, i, 0);
    }
  }

  /** A canonical queue whose addresses fit a 64-bit word. */
  ghost predicate WellFormed(q: seq<Seg>) {
    Arena(q, 0) && forall s :: s in q ==> s.End() < TOP
  }

  /** The queue holds every tag once, and the three indexes agree with it: a
      free segment is on exactly the freelist of its size, an allocated one in
      exactly the bucket of its address, a span marker on the span list. */
  ghost predicate Coherent(hash: nat -> nat, tags: Tags, queue: seq<Tag>, spanlist: seq<Tag>,
                           freelist: Lists, hashtab: Lists, nextTag: Tag)
  {
    && Linked(tags, queue)
    && spanlist == SpanTags(tags, queue)
    && |freelist| == NFREELISTS && Indexed(tags, freelist, FreeBucket)
    && |hashtab| == NBUCKETS && Indexed(tags, hashtab, HashFn(hash))
    && (forall t :: t in tags ==> t < nextTag)
  }

  lemma {:induction false} TagQueued(hash: nat -> nat, tags: Tags, queue: seq<Tag>, spanlist: seq<Tag>,
                                     freelist: Lists, hashtab: Lists, nextTag: Tag, t: Tag)
    requires Coherent(hash, tags, queue, spanlist, freelist, hashtab, nextTag) && t in tags
    ensures t in queue
  {
  }

  lemma {:induction false} TakeFreeKeeps(hash: nat -> nat, tags: Tags, queue: seq<Tag>, spanlist: seq<Tag>,
                                         freelist: Lists, hashtab: Lists, nextTag: Tag, i: nat, a: Seg)
    requires Coherent(hash, tags, queue, spanlist, freelist, hashtab, nextTag)
    requires i < |queue| && tags[queue[i]].IsFree() && 0 < tags[queue[i]].size < TOP && a.IsAllocated()
    ensures FreelistIndex(tags[queue[i]].size) < NFREELISTS
    ensures Coherent(hash, tags[queue[i] := a], queue, spanlist,
                     Unlisted(freelist, FreelistIndex(tags[queue[i]].size), queue[i]),
                     Listed(hashtab, hash(a.base) % NBUCKETS, queue[i]), nextTag)
    ensures View(tags[queue[i] := a], queue) == View(tags, queue)[i := a]
  {
    FreelistIndexBound(tags[queue[i]].size);
    ChangeTag(tags, queue, i, a);
    SpansChange(tags, queue, i, a);
    UnlistTag(tags, freelist, FreeBucket, queue[i], tags[queue[i] := a]);
    ListTag(tags, hashtab, HashFn(hash), queue[i], a);
  }

  lemma {:induction false} AddFreeKeeps(hash: nat -> nat, tags: Tags, queue: seq<Tag>, spanlist: seq<Tag>,
                                        freelist: Lists, hashtab: Lists, t: Tag, p: nat, s: Seg)
    requires Coherent(hash, tags, queue, spanlist, freelist, hashtab, t)
    requires p <= |queue| && s.IsFree() && 0 < s.size < TOP
    ensures FreelistIndex(s.size) < NFREELISTS
    ensures Coherent(hash, tags[t := s], InsertAt(queue, p, t), spanlist,
                     Listed(freelist, FreelistIndex(s.size), t), hashtab, t + 1)
    ensures View(tags[t := s], InsertAt(queue, p, t)) == InsertAt(View(tags, queue), p, s)
  {
    FreelistIndexBound(s.size);
    InsertTag(tags, queue, p, t, s);
    SpansInsert(tags, tags[t := s], queue, p, t);
    ListTag(tags, freelist, FreeBucket, t, s);
    OtherTag(tags, hashtab, HashFn(hash), t, tags[t := s]);
  }

  function Resized(freelist: Lists, old_: nat, new_: nat, t: Tag): Lists
    requires old_ < |freelist| && new_ < |freelist|
  {
    if old_ == new_ then freelist else Listed(Unlisted(freelist, old_, t), new_, t)
  }

  lemma {:induction false} ResizeIndexed(tags: Tags, freelist: Lists, t: Tag, s: Seg)
    requires Indexed(tags, freelist, FreeBucket) && |freelist| == NFREELISTS
    requires t in tags && tags[t].IsFree() && 0 < tags[t].size < TOP
    requires s.IsFree() && 0 < s.size < TOP
    ensures FreelistIndex(tags[t].size) < NFREELISTS && FreelistIndex(s.size) < NFREELISTS
    ensures Indexed(tags[t := s], Resized(freelist, FreelistIndex(tags[t].size), FreelistIndex(s.size), t), FreeBucket)
  {
    FreelistIndexBound(tags[t].size);
    FreelistIndexBound(s.size);
    if FreelistIndex(tags[t].size) == FreelistIndex(s.size) {
      OtherTag(tags, freelist, FreeBucket, t, tags[t := s]);
    } else {
      UnlistTag(tags, freelist, FreeBucket, t, tags - {t});
      ListTag(tags - {t}, Unlisted(freelist, FreelistIndex(tags[t].size), t), FreeBucket, t, s);
      assert (tags - {t})[t := s] == tags[t := s];
    }
  }

  lemma {:induction false} ResizeKeeps(hash: nat -> nat, tags: Tags, queue: seq<Tag>, spanlist: seq<Tag>,
                                       freelist: Lists, hashtab: Lists, nextTag: Tag, i: nat, s: Seg)
    requires Coherent(hash, tags, queue, spanlist, freelist, hashtab, nextTag)
    requires i < |queue| && tags[queue[i]].IsFree() && 0 < tags[queue[i]].size < TOP
    requires s.IsFree() && 0 < s.size < TOP
    ensures FreelistIndex(tags[queue[i]].size) < NFREELISTS && FreelistIndex(s.size) < NFREELISTS
    ensures Coherent(hash, tags[queue[i] := s], queue, spanlist,
                     Resized(freelist, FreelistIndex(tags[queue[i]].size), FreelistIndex(s.size), queue[i]),
                     hashtab, nextTag)
    ensures View(tags[queue[i] := s], queue) == View(tags, queue)[i := s]
  {
    ResizeIndexed(tags, freelist, queue[i], s);
    ChangeTag(tags, queue, i, s);
    SpansChange(tags, queue, i, s);
    OtherTag(tags, hashtab, HashFn(hash), queue[i], tags[queue[i] := s]);
  }

  lemma {:induction false} DropFreeKeeps(hash: nat -> nat, tags: Tags, queue: seq<Tag>, spanlist: seq<Tag>,
                                         freelist: Lists, hashtab: Lists, nextTag: Tag, i: nat)
    requires Coherent(hash, tags, queue, spanlist, freelist, hashtab, nextTag)
    requires i < |queue| && tags[queue[i]].IsFree() && 0 < tags[queue[i]].size < TOP
    ensures FreelistIndex(tags[queue[i]].size) < NFREELISTS
    ensures Coherent(hash, tags - {queue[i]}, RemoveAt(queue, i), spanlist,
                     Unlisted(freelist, FreelistIndex(tags[queue[i]].size), queue[i]), hashtab, nextTag)
    ensures View(tags - {queue[i]}, RemoveAt(queue, i)) == RemoveAt(View(tags, queue), i)
  {
    FreelistIndexBound(tags[queue[i]].size);
    RemoveTag(tags, queue, i);
    SpansRemove(tags, tags - {queue[i]}, queue, i);
    UnlistTag(tags, freelist, FreeBucket, queue[i], tags - {queue[i]});
    OtherTag(tags, hashtab, HashFn(hash), queue[i], tags - {queue[i]});
  }

  lemma {:induction false} DropAllocatedKeeps(hash: nat -> nat, tags: Tags, queue: seq<Tag>, spanlist: seq<Tag>,
                                              freelist: Lists, hashtab: Lists, nextTag: Tag, i: nat)
    requires Coherent(hash, tags, queue, spanlist, freelist, hashtab, nextTag)
    requires i < |queue| && tags[queue[i]].IsAllocated()
    ensures Coherent(hash, tags - {queue[i]}, RemoveAt(queue, i), spanlist, freelist,
                     Unlisted(hashtab, hash(tags[queue[i]].base) % NBUCKETS, queue[i]), nextTag)
    ensures View(tags - {queue[i]}, RemoveAt(queue, i)) == RemoveAt(View(tags, queue), i)
  {
    RemoveTag(tags, queue, i);
    SpansRemove(tags, tags - {queue[i]}, queue, i);
    UnlistTag(tags, hashtab, HashFn(hash), queue[i], tags - {queue[i]});
    OtherTag(tags, freelist, FreeBucket, queue[i], tags - {queue[i]});
  }

  lemma {:induction false} ReleaseKeeps(hash: nat -> nat, tags: Tags, queue: seq<Tag>, spanlist: seq<Tag>,
                                        freelist: Lists, hashtab: Lists, nextTag: Tag, i: nat, s: Seg)
    requires Coherent(hash, tags, queue, spanlist, freelist, hashtab, nextTag)
    requires i < |queue| && tags[queue[i]].IsAllocated() && s.IsFree() && 0 < s.size < TOP
    ensures FreelistIndex(s.size) < NFREELISTS
    ensures Coherent(hash, tags[queue[i] := s], queue, spanlist,
                     Listed(freelist, FreelistIndex(s.size), queue[i]),
                     Unlisted(hashtab, hash(tags[queue[i]].base) % NBUCKETS, queue[i]), nextTag)
    ensures View(tags[queue[i] := s], queue) == View(tags, queue)[i := s]
  {
    FreelistIndexBound(s.size);
    ChangeTag(tags, queue, i, s);
    SpansChange(tags, queue, i, s);
    ListTag(tags, freelist, FreeBucket, queue[i], s);
    UnlistTag(tags, hashtab, HashFn(hash), queue[i], tags[queue[i] := s]);
  }

  lemma {:induction false} SpansMembers(q: seq<Seg>)
    ensures forall s :: s in Spans(q) <==> s in q && s.IsSpan()
  {
    if q != [] {
      SpansMembers(q[1..]);
      assert q == [q[0]] + q[1..];
    }
  }

  /** Span `k` is the first that does not start below `base`. */
  ghost predicate FirstNotBelow(tags: Tags, spanlist: seq<Tag>, k: nat, base: nat) {
    && Covered(tags, spanlist) && k <= |spanlist|
    && (forall j :: 0 <= j < k ==> tags[spanlist[j]].base < base)
    && (k < |spanlist| ==> base <= tags[spanlist[k]].base)
  }

  function QueuePosition(queue: seq<Tag>, spanlist: seq<Tag>, k: nat): (p: nat)
    requires k < |spanlist| ==> spanlist[k] in queue
    ensures p <= |queue|
  {
    if k == 0 then 0 else if k < |spanlist| then IndexOf(queue, spanlist[k]) else |queue|
  }

  lemma {:induction false} AddPosition(tags: Tags, queue: seq<Tag>, spanlist: seq<Tag>, k: nat)
    requires Linked(tags, queue) && Arena(View(tags, queue), 0) && spanlist == SpanTags(tags, queue)
    requires k <= |spanlist|
    ensures k < |spanlist| ==> spanlist[k] in queue
    ensures var p := QueuePosition(queue, spanlist, k);
            && SpanTags(tags, queue[..p]) == spanlist[..k] && SpanTags(tags, queue[p..]) == spanlist[k..]
            && (k < |spanlist| ==> p < |queue| && queue[p] == spanlist[k])
            && (k == |spanlist| ==> p == |queue|)
  {
    var q := View(tags, queue);
    if k < |spanlist| {
      SpanPosition(tags, queue, k);
    }
    if queue != [] {
      assert q[0] == tags[queue[0]] && q[0].IsSpan();
      assert spanlist[0] == queue[0];
    }
    assert queue[..|queue|] == queue && queue[0..] == queue;
  }

  lemma {:induction false} AddFits(tags: Tags, queue: seq<Tag>, spanlist: seq<Tag>, k: nat, base: nat, size: nat)
    requires Linked(tags, queue) && Arena(View(tags, queue), 0) && spanlist == SpanTags(tags, queue)
    requires FirstNotBelow(tags, spanlist, k, base) && 0 < size
    requires forall t :: t in spanlist ==> tags[t].End() <= base || base + size <= tags[t].base
    ensures k < |spanlist| ==> spanlist[k] in queue
    ensures SpanFits(View(tags, queue), QueuePosition(queue, spanlist, k), base, size)
  {
    AddPosition(tags, queue, spanlist, k);
    var p := QueuePosition(queue, spanlist, k);
    var q := View(tags, queue);
    ArenaBases(q, 0);
    assert k < |spanlist| ==> spanlist[k] in spanlist && q[p] == tags[spanlist[k]] && q[p] in q;
    SpanTagsMembers(tags, queue);
    SpanTagsMembers(tags, queue[..p]);
    forall j | 0 <= j < p && q[j].IsSpan() ensures q[j].End() <= base {
      assert queue[j] in queue[..p];
      assert queue[j] in spanlist[..k];
      assert queue[j] in spanlist;
    }
  }

  lemma {:induction false} AddSpanKeeps(hash: nat -> nat, tags: Tags, queue: seq<Tag>, spanlist: seq<Tag>,
                                        freelist: Lists, hashtab: Lists, t: Tag, p: nat, k: nat, s: Seg)
    requires Coherent(hash, tags, queue, spanlist, freelist, hashtab, t)
    requires p <= |queue| && k <= |spanlist| && s.IsSpan()
    requires SpanTags(tags, queue[..p]) == spanlist[..k] && SpanTags(tags, queue[p..]) == spanlist[k..]
    ensures Coherent(hash, tags[t := s], InsertAt(queue, p, t), InsertAt(spanlist, k, t), freelist, hashtab, t + 1)
    ensures View(tags[t := s], InsertAt(queue, p, t)) == InsertAt(View(tags, queue), p, s)
  {
    InsertTag(tags, queue, p, t, s);
    SpansInsert(tags, tags[t := s], queue, p, t);
    OtherTag(tags, freelist, FreeBucket, t, tags[t := s]);
    OtherTag(tags, hashtab, HashFn(hash), t, tags[t := s]);
  }

  lemma {:induction false} SpanTagsApart(tags: Tags, queue: seq<Tag>, base: nat, size: nat)
    requires Linked(tags, queue)
    requires forall s :: s in Spans(View(tags, queue)) ==> s.End() <= base || base + size <= s.base
    ensures forall t :: t in SpanTags(tags, queue) ==>
              t in tags && (tags[t].End() <= base || base + size <= tags[t].base)
  {
    var q := View(tags, queue);
    SpanTagsMembers(tags, queue);
    SpansMembers(q);
    forall t | t in SpanTags(tags, queue) ensures tags[t].End() <= base || base + size <= tags[t].base {
      var i := IndexOf(queue, t);
      assert q[i] == tags[t] && q[i] in q;
    }
  }

  lemma {:induction false} WithSpanResult(q: seq<Seg>, p: nat, base: nat, size: nat)
    requires WellFormed(q) && SpanFits(q, p, base, size) && 0 < size && base + size < TOP
    ensures var r := WithSpan(q, p, base, size);
            && WellFormed(r) && Live(r) == Live(q) && Used(r) == Used(q)
            && InsertIf(InsertAt(q, p, Seg(Span, base, size)), true, p + 1, Seg(Free, base, size)) == r
  {
    WithSpanKeeps(q, p, base, size);
    AddEdits(q, p, base, size);
    assert q == q[..p] + q[p..];
  }

  /** What adding a span at its place does to the queue. */
  lemma {:induction false} AddResult(tags: Tags, queue: seq<Tag>, spanlist: seq<Tag>, k: nat, base: nat, size: nat)
    requires Linked(tags, queue) && WellFormed(View(tags, queue)) && spanlist == SpanTags(tags, queue)
    requires FirstNotBelow(tags, spanlist, k, base) && 0 < size && base + size < TOP
    requires forall s :: s in Spans(View(tags, queue)) ==> s.End() <= base || base + size <= s.base
    ensures k < |spanlist| ==> spanlist[k] in queue
    ensures var p, q := QueuePosition(queue, spanlist, k), View(tags, queue);
            && SpanTags(tags, queue[..p]) == spanlist[..k] && SpanTags(tags, queue[p..]) == spanlist[k..]
            && SpanFits(q, p, base, size)
            && WellFormed(WithSpan(q, p, base, size))
            && Live(WithSpan(q, p, base, size)) == Live(q) && Used(WithSpan(q, p, base, size)) == Used(q)
            && InsertIf(InsertAt(q, p, Seg(Span, base, size)), true, p + 1, Seg(Free, base, size)) ==
               WithSpan(q, p, base, size)
  {
    SpanTagsApart(tags, queue, base, size);
    AddPosition(tags, queue, spanlist, k);
    AddFits(tags, queue, spanlist, k, base, size);
    WithSpanResult(View(tags, queue), QueuePosition(queue, spanlist, k), base, size);
  }

  lemma {:induction false} AddEdits(q: seq<Seg>, p: nat, base: nat, size: nat)
    requires p <= |q|
    ensures InsertIf(InsertAt(q, p, Seg(Span, base, size)), true, p + 1, Seg(Free, base, size)) ==
            WithSpan(q, p, base, size)
  {
  }

  // ------------------------------------------------------- results of edits

  /** Queue `r` is `q` with one more allocation. */
  ghost predicate OneMore(q: seq<Seg>, r: seq<Seg>, addr: nat, size: nat) {
    && WellFormed(r) && Used(r) == Used(q) + size && Spans(r) == Spans(q)
    && Live(r) == Live(q) + {Seg(Kind.Allocated, addr, size)}
  }

  lemma {:induction false} SplitResult(q: seq<Seg>, i: nat, addr: nat, size: nat)
    requires WellFormed(q) && i < |q| && CanHold(q[i], addr, size)
    ensures OneMore(q, SplitEdits(q, i, addr, size), addr, size)
  {
    SplitAsEdits(q, i, addr, size);
    SplitKeeps(q, i, addr, size, 0);
    assert q[i] in q;
    assert forall s :: s in Pieces(q[i], addr, size) ==> s.End() <= q[i].End();
  }

  lemma {:induction false} MergeResult(q: seq<Seg>, i: nat)
    requires WellFormed(q) && 0 < i < |q| && q[i].IsAllocated()
    ensures var r := MergeEdits(q, i);
            && WellFormed(r) && Used(r) == Used(q) - q[i].size && Spans(r) == Spans(q)
            && Live(r) == Live(q) - {q[i]}
  {
    CoalesceAsEdits(q, i);
    CoalesceKeeps(q, i, 0);
    MergedEnd(q, i);
  }

  lemma {:induction false} MergedEnd(q: seq<Seg>, i: nat)
    requires WellFormed(q) && 0 < i < |q| && q[i].IsAllocated()
    ensures forall s :: s in Coalesce(q, i) ==> s.End() < TOP
  {
    var lo, hi := FirstMerged(q, i), AfterMerged(q, i);
    MergedSize(q, i);
    assert q[lo] in q && q[i] in q && q[hi - 1] in q;
    assert hi == i + 2 ==> q[i + 1..hi] == [q[i + 1]] && SizeOf([q[i + 1]]) == q[i + 1].size + SizeOf([q[i + 1]][1..]);
    assert hi == i + 1 ==> q[i + 1..hi] == [];
    if lo < i {
      NeighboursMeet(q, lo, 0);
    }
    if hi == i + 2 {
      NeighboursMeet(q, i, 0);
    }
  }

  // ----------------------------------------------------- choosing an address

  /** The first address of `f` that the allocator tries. */
  function Candidate(f: Seg, min: nat, align: nat): nat {
    RoundUp(if f.base <= min then min else f.base, align)
  }

  /** The allocator's test that `[addr, addr+size)` ends inside `f`, on 64-bit words. */
  predicate FitsWord(f: Seg, addr: nat, size: nat) {
    (addr + size) % TOP <= f.End() % TOP
  }

  /** On 64-bit words the test means what it says exactly when the end of the
      requested interval does not wrap below the segment's end. */
  lemma {:induction false} FitsWordExact(f: Seg, addr: nat, size: nat)
    requires f.End() < TOP
    ensures (FitsWord(f, addr, size) <==> addr + size <= f.End()) <==> Unwrapped(f, addr, size)
  {
    if addr + size < TOP {
      DivUnique(addr + size, TOP, 0, addr + size);
    }
  }

  predicate Unwrapped(f: Seg, addr: nat, size: nat) {
    addr + size < TOP || f.End() < (addr + size) % TOP
  }

  /** A request the test accepts although the segment ends far below it. */
  lemma {:induction false} FitsWordWraps()
    ensures var f := Seg(Free, 0x1000, 0x8000);
            FitsWord(f, TOP - 0x1000, 0x2000) && !(TOP - 0x1000 + 0x2000 <= f.End())
  {
    DivUnique(TOP - 0x1000 + 0x2000, TOP, 1, 0x1000);
  }

  predicate Eligible(f: Seg, min: nat, exact: bool) {
    exact ==> f.base <= min
  }

  ghost predicate Serves(f: Seg, size: nat, align: nat, min: nat, exact: bool) {
    Eligible(f, min, exact) && FitsWord(f, Candidate(f, min, align), size)
  }

  /** No free segment that is large enough passes the test. */
  ghost predicate NoneFits(q: seq<Seg>, size: nat, align: nat, min: nat, exact: bool) {
    forall f :: f in q && f.IsFree() && size <= f.size ==> !Serves(f, size, align, min, exact)
  }

  /** The test means what it says of every segment it is made on. */
  ghost predicate NoWrap(q: seq<Seg>, size: nat, align: nat, min: nat, exact: bool) {
    forall f :: f in q && f.IsFree() && Eligible(f, min, exact) ==> Unwrapped(f, Candidate(f, min, align), size)
  }

  lemma {:induction false} ServesHolds(f: Seg, size: nat, align: nat, min: nat, exact: bool)
    requires f.IsFree() && f.End() < TOP && 0 < size
    requires Eligible(f, min, exact) ==> Unwrapped(f, Candidate(f, min, align), size)
    ensures Serves(f, size, align, min, exact) <==>
              Eligible(f, min, exact) && CanHold(f, Candidate(f, min, align), size)
  {
    RoundUpAbove(if f.base <= min then min else f.base, align);
    var c := Candidate(f, min, align);
    hide RoundUp, FitsWord, Unwrapped;
    FitsWordExact(f, c, size);
  }

  /** Without `exact`, a free segment serves the request if it can hold it at any
      address of the wanted alignment. */
  lemma {:induction false} FirstAlignedServes(f: Seg, size: nat, align: nat, a: nat)
    requires f.IsFree() && f.End() < TOP && 0 < size
    requires CanHold(f, a, size) && (align != 0 ==> a % align == 0)
    ensures Serves(f, size, align, 0, false)
  {
    RoundUpAbove(f.base, align);
    if align != 0 {
      RoundUpLeast(f.base, align, a);
    }
    hide RoundUp;
    assert Candidate(f, 0, align) + size <= f.End();
    FitsWordExact(f, Candidate(f, 0, align), size);
  }

  /** If nothing on the freelists from the request's own index up serves, then no
      free segment of the arena that is large enough does; and none at all, if the test
      means what it says. */
  lemma {:induction false} SearchComplete(tags: Tags, queue: seq<Tag>, freelist: Lists,
                                          size: nat, align: nat, min: nat, exact: bool)
    requires Linked(tags, queue) && Indexed(tags, freelist, FreeBucket) && WellFormed(View(tags, queue))
    requires |freelist| == NFREELISTS && 0 < size < TOP
    requires forall k, t :: FreelistIndex(size) <= k < NFREELISTS && t in freelist[k] ==>
               !Serves(tags[t], size, align, min, exact)
    ensures NoneFits(View(tags, queue), size, align, min, exact)
    ensures NoWrap(View(tags, queue), size, align, min, exact) ==>
              forall f :: f in View(tags, queue) && f.IsFree() ==> !Serves(f, size, align, min, exact)
  {
    var q := View(tags, queue);
    ArenaBases(q, 0);
    forall f | f in q && f.IsFree() && size <= f.size ensures !Serves(f, size, align, min, exact) {
      var i :| 0 <= i < |q| && q[i] == f;
      FreelistIndexBound(f.size);
      FreelistIndexMonotone(size, f.size);
      assert queue[i] in freelist[FreelistIndex(f.size)];
    }
    forall f | NoWrap(q, size, align, min, exact) && f in q && f.IsFree() ensures !Serves(f, size, align, min, exact) {
      ServesHolds(f, size, align, min, exact);
    }
  }

  lemma {:induction false} BucketComplete(hash: nat -> nat, tags: Tags, queue: seq<Tag>, hashtab: Lists, addr: nat)
    requires Linked(tags, queue) && Indexed(tags, hashtab, HashFn(hash)) && |hashtab| == NBUCKETS
    requires forall t :: t in hashtab[hash(addr) % NBUCKETS] ==> tags[t].base != addr
    ensures forall a :: a in Live(View(tags, queue)) ==> a.base != addr
  {
    var q := View(tags, queue);
    forall a | a in Live(q) ensures a.base != addr {
      var i :| 0 <= i < |q| && q[i] == a;
      assert queue[i] in tags && HashFn(hash)(tags[queue[i]]) == hash(a.base) % NBUCKETS;
    }
  }

  ghost function LiveExcept(live: set<Seg>, addr: nat): set<Seg> {
    set a | a in live && a.base != addr
  }

  /** A live allocation is determined by its base, and never heads the queue. */
  lemma {:induction false} LiveAt(q: seq<Seg>, i: nat)
    requires WellFormed(q) && i < |q| && q[i].IsAllocated()
    ensures 0 < i && q[i] in Live(q)
    ensures forall a :: a in Live(q) && a.base == q[i].base ==> a == q[i]
    ensures LiveExcept(Live(q), q[i].base) == Live(q) - {q[i]}
  {
    OnceOnly(q, i, 0);
    forall a | a in Live(q) && a.base == q[i].base ensures a == q[i] {
      var k :| 0 <= k < |q| && q[k] == a;
    }
  }

  /** What a successful allocation promises of its address. */
  ghost predicate Granted(q: seq<Seg>, addr: nat, size: nat, align: nat, min: nat, exact: bool) {
    && (exists f :: f in q && CanHold(f, addr, size))
    && (forall a :: a in Live(q) ==> a.End() <= addr || addr + size <= a.base)
    && (align != 0 ==> addr % align == 0)
    && (exact ==> addr == RoundUp(min, align))
  }

  /** What a failed allocation says about the arena: no free segment holds the
      request at any aligned address (at the given address, for an exact one). */
  ghost predicate NoRoom(q: seq<Seg>, size: nat, align: nat, min: nat, exact: bool) {
    if exact then forall f :: f in q && f.base <= min ==> !CanHold(f, RoundUp(min, align), size)
    else forall f, a: nat :: f in q && CanHold(f, a, size) ==> align != 0 && a % align != 0
  }

  lemma {:induction false} NoneServes(q: seq<Seg>, size: nat, align: nat, min: nat, exact: bool)
    requires WellFormed(q) && 0 < size < TOP && (min == 0 || exact)
    requires NoneFits(q, size, align, min, exact)
    ensures NoRoom(q, size, align, min, exact)
  {
    if exact {
      forall f | f in q && f.base <= min ensures !CanHold(f, RoundUp(min, align), size) {
        if CanHold(f, RoundUp(min, align), size) {
          FitsWordExact(f, RoundUp(min, align), size);
        }
      }
    } else {
      forall f, a: nat | f in q && CanHold(f, a, size) ensures align != 0 && a % align != 0 {
        if align == 0 || a % align == 0 {
          FirstAlignedServes(f, size, align, a);
        }
      }
    }
  }

  lemma {:induction false} ServesWraps(q: seq<Seg>, i: nat, size: nat, align: nat, min: nat, exact: bool)
    requires WellFormed(q) && i < |q| && q[i].IsFree() && Serves(q[i], size, align, min, exact)
    requires Candidate(q[i], min, align) + size > q[i].End()
    ensures !NoWrap(q, size, align, min, exact)
  {
    assert q[i] in q;
    FitsWordExact(q[i], Candidate(q[i], min, align), size);
  }

  lemma {:induction false} ServesGranted(q: seq<Seg>, i: nat, size: nat, align: nat, min: nat, exact: bool)
    requires WellFormed(q) && 0 < size < TOP && (min == 0 || exact)
    requires i < |q| && q[i].IsFree() && Serves(q[i], size, align, min, exact)
    requires Candidate(q[i], min, align) + size <= q[i].End()
    ensures CanHold(q[i], Candidate(q[i], min, align), size)
    ensures Granted(q, Candidate(q[i], min, align), size, align, min, exact)
  {
    assert q[i] in q;
    FreeHoldsNoLive(q, i, 0);
    RoundUpAbove(if q[i].base <= min then min else q[i].base, align);
  }

  /** An arena: segment tags, the queue through all of them, the freelists, the
      hash table of allocated segments, the list of span markers, and the total
      allocated. `hash` stands for the source's bucket hash and may be any function. */
  class VmemArena {
    const hash: nat -> nat
    var tags: Tags
    var queue: seq<Tag>
    var spanlist: seq<Tag>
    var freelist: Lists
    var hashtab: Lists
    var used: nat
    var nextTag: Tag

    ghost predicate Consistent()
      reads this
    {
      Coherent(hash, tags, queue, spanlist, freelist, hashtab, nextTag)
    }

    ghost predicate Valid()
      reads this
    {
      Consistent() && Covered(tags, queue) && WellFormed(Segs()) && used == Used(Segs())
    }

    ghost function Segs(): seq<Seg>
      reads this
      requires Covered(tags, queue)
    {
      View(tags, queue)
    }

    /** Take segment `i` off its freelist and make it the allocated segment `a`. */
    method TakeFree(i: nat, a: Seg)
      requires Consistent() && i < |queue| && a.IsAllocated()
      requires tags[queue[i]].IsFree() && 0 < tags[queue[i]].size < TOP
      modifies this`tags, this`freelist, this`hashtab
      ensures Consistent() && Covered(tags, queue) && Segs() == old(Segs())[i := a]
    {
      var t := queue[i];
      TakeFreeKeeps(hash, tags, queue, spanlist, freelist, hashtab, nextTag, i, a);
      freelist := Unlisted(freelist, FreelistIndex(tags[t].size), t);
      hashtab := Listed(hashtab, hash(a.base) % NBUCKETS, t);
      tags := tags[t := a];
    }

    /** Put a new free segment `s`, if there is one, in the queue at position `p`. */
    method AddFree(wanted: bool, p: nat, s: Seg)
      requires Consistent() && p <= |queue| && (wanted ==> s.IsFree() && 0 < s.size < TOP)
      modifies this`tags, this`queue, this`freelist, this`nextTag
      ensures Consistent() && Covered(tags, queue) && Segs() == InsertIf(old(Segs()), wanted, p, s)
      ensures |queue| == old(|queue|) + if wanted then 1 else 0
    {
      if wanted {
        var t := nextTag;
        AddFreeKeeps(hash, tags, queue, spanlist, freelist, hashtab, nextTag, p, s);
        nextTag := nextTag + 1;
        tags := tags[t := s];
        queue := InsertAt(queue, p, t);
        freelist := Listed(freelist, FreelistIndex(s.size), t);
      }
    }

    method SplitSeg(i: nat, addr: nat, size: nat)
      requires Consistent() && Covered(tags, queue) && i < |queue|
      requires CanHold(Segs()[i], addr, size) && Segs()[i].End() < TOP
      modifies this`tags, this`queue, this`freelist, this`hashtab, this`nextTag
      ensures Consistent() && Covered(tags, queue)
      ensures Segs() == SplitEdits(old(Segs()), i, addr, size)
    {
      hide Coherent, InsertAt, InsertIf;
      var f := tags[queue[i]];
      assert Segs()[i] == f;
      hide View;
      TakeFree(i, Seg(Kind.Allocated, addr, size));
      AddFree(f.base < addr, i, Seg(Free, f.base, addr - f.base));
      AddFree(addr + size < f.End(), if f.base < addr then i + 2 else i + 1,
              Seg(Free, addr + size, f.End() - (addr + size)));
    }

    /** `freeseg_resize`: give free segment `i` a new base and size, moving it to
        another freelist when its size class changes. */
    method ResizeFree(i: nat, s: Seg)
      requires Consistent() && i < |queue| && s.IsFree() && 0 < s.size < TOP
      requires tags[queue[i]].IsFree() && 0 < tags[queue[i]].size < TOP
      modifies this`tags, this`freelist
      ensures Consistent() && Covered(tags, queue) && Segs() == old(Segs())[i := s]
    {
      var t := queue[i];
      ResizeKeeps(hash, tags, queue, spanlist, freelist, hashtab, nextTag, i, s);
      var oldIndex, newIndex := FreelistIndex(tags[t].size), FreelistIndex(s.size);
      tags := tags[t := s];
      if newIndex != oldIndex {
        freelist := Unlisted(freelist, oldIndex, t);
        freelist := Listed(freelist, newIndex, t);
      }
    }

    /** Take free segment `i` out of the arena. */
    method DropFree(i: nat)
      requires Consistent() && i < |queue|
      requires tags[queue[i]].IsFree() && 0 < tags[queue[i]].size < TOP
      modifies this`tags, this`queue, this`freelist
      ensures Consistent() && Covered(tags, queue) && Segs() == RemoveAt(old(Segs()), i)
    {
      var t := queue[i];
      DropFreeKeeps(hash, tags, queue, spanlist, freelist, hashtab, nextTag, i);
      freelist := Unlisted(freelist, FreelistIndex(tags[t].size), t);
      queue := RemoveAt(queue, i);
      tags := tags - {t};
    }

    /** Take allocated segment `i` out of the arena. */
    method DropAllocated(i: nat)
      requires Consistent() && i < |queue| && tags[queue[i]].IsAllocated()
      modifies this`tags, this`queue, this`hashtab
      ensures Consistent() && Covered(tags, queue) && Segs() == RemoveAt(old(Segs()), i)
    {
      var t := queue[i];
      DropAllocatedKeeps(hash, tags, queue, spanlist, freelist, hashtab, nextTag, i);
      hashtab := Unlisted(hashtab, hash(tags[t].base) % NBUCKETS, t);
      queue := RemoveAt(queue, i);
      tags := tags - {t};
    }

    method Drop(i: nat, wasFree: bool)
      requires Consistent() && i < |queue|
      requires if wasFree then tags[queue[i]].IsFree() && 0 < tags[queue[i]].size < TOP
               else tags[queue[i]].IsAllocated()
      modifies this`tags, this`queue, this`freelist, this`hashtab
      ensures Consistent() && Covered(tags, queue) && Segs() == RemoveAt(old(Segs()), i)
    {
      if wasFree {
        DropFree(i);
      } else {
        DropAllocated(i);
      }
    }

    /** Move allocated segment `i` from its hash bucket to a freelist. */
    method Release(i: nat)
      requires Consistent() && i < |queue|
      requires tags[queue[i]].IsAllocated() && 0 < tags[queue[i]].size < TOP
      modifies this`tags, this`freelist, this`hashtab
      ensures Consistent() && Covered(tags, queue)
      ensures Segs() == old(Segs())[i := Seg(Free, old(Segs())[i].base, old(Segs())[i].size)]
    {
      var t := queue[i];
      var s := Seg(Free, tags[t].base, tags[t].size);
      ReleaseKeeps(hash, tags, queue, spanlist, freelist, hashtab, nextTag, i, s);
      hashtab := Unlisted(hashtab, hash(s.base) % NBUCKETS, t);
      tags := tags[t := s];
      freelist := Listed(freelist, FreelistIndex(s.size), t);
    }

    /** Join allocated segment `i` to its free left neighbour. */
    method MergeLeft(i: nat)
      requires Consistent() && Covered(tags, queue) && 0 < i < |queue|
      requires var q := Segs(); q[i].IsAllocated() && q[i - 1].IsFree()
                                && 0 < q[i - 1].size && q[i - 1].size + q[i].size < TOP
      modifies this`tags, this`queue, this`freelist, this`hashtab
      ensures Consistent() && Covered(tags, queue)
      ensures Segs() == JoinLeft(old(Segs()), i)
    {
      hide Coherent, RemoveAt;
      var left, a := tags[queue[i - 1]], tags[queue[i]];
      ghost var q := Segs();
      assert q[i - 1] == left && q[i] == a;
      hide View;
      ResizeFree(i - 1, Seg(Free, left.base, left.size + a.size));
      assert Segs()[i] == a;
      DropAllocated(i);
    }

    /** Join free segment `i` (if `wasFree`) or allocated segment `i` to its free
        right neighbour, which takes over the base. */
    method MergeRight(i: nat, wasFree: bool)
      requires Consistent() && Covered(tags, queue) && i + 1 < |queue|
      requires var q := Segs(); (if wasFree then q[i].IsFree() && 0 < q[i].size else q[i].IsAllocated())
                                && q[i + 1].IsFree() && 0 < q[i + 1].size && q[i].size + q[i + 1].size < TOP
      modifies this`tags, this`queue, this`freelist, this`hashtab
      ensures Consistent() && Covered(tags, queue)
      ensures Segs() == JoinRight(old(Segs()), i)
    {
      hide Coherent, RemoveAt;
      var right, a := tags[queue[i + 1]], tags[queue[i]];
      ghost var q := Segs();
      assert q[i + 1] == right && q[i] == a;
      hide View;
      ResizeFree(i + 1, Seg(Free, a.base, right.size + a.size));
      assert Segs()[i] == a;
      Drop(i, wasFree);
    }

    /** The part of `vmem_xfree` after the segment is found: join it to a free
        left neighbour, then to a free right neighbour, else list it. */
    method Merge(i: nat)
      requires Valid() && 0 < i < |queue| && tags[queue[i]].IsAllocated()
      modifies this`tags, this`queue, this`freelist, this`hashtab
      ensures Consistent() && Covered(tags, queue) && Segs() == MergeEdits(old(Segs()), i)
    {
      ghost var q := Segs();
      MergedBounds(q, i);
      assert q[i] == tags[queue[i]] && q[i - 1] == tags[queue[i - 1]];
      assert i + 1 < |q| ==> q[i + 1] == tags[queue[i + 1]];
      hide Coherent, Arena, Used;
      if tags[queue[i - 1]].IsFree() {
        MergeLeft(i);
        assert i < |queue| ==> Segs()[i] == tags[queue[i]] == q[i + 1];
        assert Segs()[i - 1] == Seg(Free, q[i - 1].base, q[i - 1].size + q[i].size);
        if i < |queue| && tags[queue[i]].IsFree() {
          MergeRight(i - 1, true);
        }
      } else if i + 1 < |queue| && tags[queue[i + 1]].IsFree() {
        MergeRight(i, false);
      } else {
        Release(i);
      }
    }

    constructor (hash: nat -> nat, base: nat, size: nat)
      requires base + size < TOP
      ensures Valid() && this.hash == hash && Live(Segs()) == {} && used == 0
      ensures Segs() == if size == 0 then [] else [Seg(Span, base, size), Seg(Free, base, size)]
    {
      this.hash := hash;
      tags, queue, spanlist, used, nextTag := map[], [], [], 0, 0;
      freelist := seq(NFREELISTS, _ => []);
      hashtab := seq(NBUCKETS, _ => []);
      new;
      if size != 0 {
        Add(base, size);
      }
    }

    method AddSpan(p: nat, k: nat, s: Seg)
      requires Consistent() && p <= |queue| && k <= |spanlist| && s.IsSpan()
      requires SpanTags(tags, queue[..p]) == spanlist[..k] && SpanTags(tags, queue[p..]) == spanlist[k..]
      modifies this`tags, this`queue, this`spanlist, this`nextTag
      ensures Consistent() && Covered(tags, queue) && Segs() == InsertAt(old(Segs()), p, s)
      ensures |queue| == old(|queue|) + 1
    {
      AddSpanKeeps(hash, tags, queue, spanlist, freelist, hashtab, nextTag, p, k, s);
      tags := tags[nextTag := s];
      spanlist := InsertAt(spanlist, k, nextTag);
      queue := InsertAt(queue, p, nextTag);
      nextTag := nextTag + 1;
    }

    /** The last span before `base` is the one before the first not below it. */
    method FindSpan(base: nat) returns (k: nat)
      requires Valid()
      ensures FirstNotBelow(tags, spanlist, k, base)
    {
      k := 0;
      SpanTagsMembers(tags, queue);
      while k < |spanlist| && tags[spanlist[k]].base < base
        invariant 0 <= k <= |spanlist|
        invariant forall j :: 0 <= j < k ==> tags[spanlist[j]].base < base
      {
        k := k + 1;
      }
    }

    /** `vmem_add_internal`: a new span, placed after the last span that starts
        below it. Spans must not overlap. */
    method Add(base: nat, size: nat)
      requires Valid() && 0 < size && base + size < TOP
      requires forall s :: s in Spans(Segs()) ==> s.End() <= base || base + size <= s.base
      modifies this
      ensures Valid()
      ensures Live(Segs()) == old(Live(Segs())) && used == old(used)
      ensures exists p :: SpanFits(old(Segs()), p, base, size) && Segs() == WithSpan(old(Segs()), p, base, size)
    {
      var k := FindSpan(base);
      AddResult(tags, queue, spanlist, k, base, size);
      hide Coherent, WellFormed, View, InsertAt, InsertIf, SpanTags, SpanFits, WithSpan;
      var p := QueuePosition(queue, spanlist, k);
      AddSpan(p, k, Seg(Span, base, size));
      AddFree(true, p + 1, Seg(Free, base, size));
    }

    /** Look `addr` up in its hash bucket. */
    method FindAllocated(addr: nat) returns (found: bool, i: nat)
      requires Valid()
      ensures found ==> i < |queue| && tags[queue[i]].IsAllocated() && tags[queue[i]].base == addr
      ensures !found ==> forall a :: a in Live(Segs()) ==> a.base != addr
    {
      var bucket := hashtab[hash(addr) % NBUCKETS];
      var j := 0;
      while j < |bucket|
        invariant 0 <= j <= |bucket|
        invariant forall k :: 0 <= k < j ==> bucket[k] in tags && tags[bucket[k]].base != addr
      {
        var t := bucket[j];
        assert t in bucket;
        if tags[t].base == addr {
          return true, IndexOf(queue, t);
        }
        j := j + 1;
      }
      BucketComplete(hash, tags, queue, hashtab, addr);
      return false, 0;
    }

    /** `vmem_xfree`. The source halts (`Fatal`) on an address it never allocated
        or a size that does not match; size 0 matches any. */
    method XFree(addr: nat, size: nat) returns (r: FreeResult)
      requires Valid()
      modifies this
      ensures Valid() && Spans(Segs()) == old(Spans(Segs()))
      ensures r.Freed? <==>
                exists a :: a in old(Live(Segs())) && a.base == addr && (size == 0 || a.size == size)
      ensures r.Fatal? ==> Segs() == old(Segs()) && used == old(used)
      ensures r.Freed? ==> && Seg(Kind.Allocated, addr, r.size) in old(Live(Segs()))
                           && Live(Segs()) == LiveExcept(old(Live(Segs())), addr)
                           && used == old(used) - r.size
    {
      ghost var q := Segs();
      var found, i := FindAllocated(addr);
      if !found {
        return Fatal;
      }
      var a := tags[queue[i]];
      assert q[i] == a;
      LiveAt(q, i);
      if size != 0 && a.size != size {
        return Fatal;
      }
      MergeResult(q, i);
      Merge(i);
      used := used - a.size;
      return Freed(a.size);
    }

    /** The freelist search of `vmem_xalloc`: the first segment, from the freelist
        of the request's own size class upwards, that passes the test. */
    method FindFree(size: nat, align: nat, min: nat, exact: bool) returns (found: bool, t: Tag)
      requires Valid() && 0 < size < TOP
      ensures found ==> t in tags && tags[t].IsFree() && Serves(tags[t], size, align, min, exact)
      ensures !found ==> NoneFits(Segs(), size, align, min, exact)
    {
      var k := FreelistIndex(size);
      while k < NFREELISTS
        invariant FreelistIndex(size) <= k
        invariant forall n, x :: FreelistIndex(size) <= n < k && n < NFREELISTS && x in freelist[n] ==>
                    x in tags && !Serves(tags[x], size, align, min, exact)
      {
        var list := freelist[k];
        var j := 0;
        while j < |list|
          invariant 0 <= j <= |list|
          invariant forall n :: 0 <= n < j ==> list[n] in tags && !Serves(tags[list[n]], size, align, min, exact)
        {
          var x := list[j];
          assert x in freelist[k] && FreeBucket(tags[x]) == k;
          if Eligible(tags[x], min, exact) && FitsWord(tags[x], Candidate(tags[x], min, align), size) {
            return true, x;
          }
          j := j + 1;
        }
        k := k + 1;
      }
      SearchComplete(tags, queue, freelist, size, align, min, exact);
      return false, 0;
    }

    method AllocAt(i: nat, addr: nat, size: nat)
      requires Valid() && i < |queue| && CanHold(Segs()[i], addr, size)
      modifies this`tags, this`queue, this`freelist, this`hashtab, this`nextTag
      ensures Consistent() && Covered(tags, queue) && OneMore(old(Segs()), Segs(), addr, size)
    {
      ghost var q := Segs();
      assert q[i] in q;
      SplitResult(q, i, addr, size);
      hide Coherent, WellFormed, SplitEdits, OneMore;
      SplitSeg(i, addr, size);
    }

    /** `vmem_xalloc` on an arena without a backing source. `Misplaced` is where the test
        has let a segment pass that ends below the request, which it does only if some
        segment's test wraps; what the code then does to that segment is left open. */
    method XAlloc(size: nat, align: nat, min: nat, exact: bool) returns (r: AllocResult)
      requires Valid() && 0 < size < TOP && (min == 0 || exact)
      modifies this
      ensures Valid() && Spans(Segs()) == old(Spans(Segs()))
      ensures r.Allocated? ==> && Granted(old(Segs()), r.addr, size, align, min, exact)
                               && Live(Segs()) == old(Live(Segs())) + {Seg(Kind.Allocated, r.addr, size)}
                               && used == old(used) + size
      ensures !r.Allocated? ==> Segs() == old(Segs()) && used == old(used)
      ensures r.Exhausted? ==> NoRoom(Segs(), size, align, min, exact) && NoneFits(Segs(), size, align, min, exact)
      ensures r.Misplaced? ==> !NoWrap(Segs(), size, align, min, exact)
    {
      hide Coherent, Granted, Serves, NoWrap, NoneFits, NoRoom, WellFormed, FitsWord;
      var found, t := FindFree(size, align, min, exact);
      if !found {
        NoneServes(Segs(), size, align, min, exact);
        return Exhausted;
      }
      TagQueued(hash, tags, queue, spanlist, freelist, hashtab, nextTag, t);
      var i := IndexOf(queue, t);
      ghost var q := Segs();
      assert q[i] == tags[t];
      var addr := Candidate(tags[t], min, align);
      if addr + size > tags[t].End() {
        ServesWraps(q, i, size, align, min, exact);
        return Misplaced;
      }
      ServesGranted(q, i, size, align, min, exact);
      AllocAt(i, addr, size);
      used := used + size;
      return AllocResult.Allocated(addr);
    }
  }

  /** Two arenas with the same spans and the same live allocations have the same
      segment queue and the same total, whatever was done to reach them. */
  lemma {:induction false} SameQueue(one: VmemArena, two: VmemArena)
    requires one.Valid() && two.Valid()
    requires Live(one.Segs()) == Live(two.Segs()) && Spans(one.Segs()) == Spans(two.Segs())
    ensures one.Segs() == two.Segs() && one.used == two.used
  {
    ArenaUnique(one.Segs(), two.Segs(), 0);
  }

  lemma {:induction false} NewLiveExcept(q: seq<Seg>, addr: nat, size: nat, align: nat, min: nat, exact: bool)
    requires WellFormed(q) && Granted(q, addr, size, align, min, exact)
    ensures LiveExcept(Live(q) + {Seg(Kind.Allocated, addr, size)}, addr) == Live(q)
  {
    ArenaBases(q, 0);
  }

  /** Freeing what was just allocated gives back the very same segment queue. */
  method AllocThenFree(arena: VmemArena, size: nat, align: nat, min: nat, exact: bool) returns (done: bool)
    requires arena.Valid() && 0 < size < TOP && (min == 0 || exact)
    modifies arena
    ensures arena.Valid() && arena.Segs() == old(arena.Segs()) && arena.used == old(arena.used)
    ensures !done ==> NoRoom(arena.Segs(), size, align, min, exact) || !NoWrap(arena.Segs(), size, align, min, exact)
  {
    hide Coherent, Granted, Used, NoRoom, Arena, NoWrap;
    ghost var q := arena.Segs();
    var r := arena.XAlloc(size, align, min, exact);
    if !r.Allocated? {
      return false;
    }
    NewLiveExcept(q, r.addr, size, align, min, exact);
    assert Seg(Kind.Allocated, r.addr, size) in Live(arena.Segs());
    var f := arena.XFree(r.addr, 0);
    ArenaUnique(arena.Segs(), q, 0);
    return true;
  }

  lemma {:induction false} LiveExceptCommutes(live: set<Seg>, x: nat, y: nat)
    ensures LiveExcept(LiveExcept(live, x), y) == LiveExcept(LiveExcept(live, y), x)
  {
  }

  /** Two addresses may be freed in either order: the queues that result are equal. */
  method FreeInEitherOrder(one: VmemArena, two: VmemArena, x: nat, y: nat)
    requires one.Valid() && two.Valid() && one != two && one.Segs() == two.Segs() && x != y
    modifies one, two
    ensures one.Valid() && two.Valid() && one.Segs() == two.Segs() && one.used == two.used
  {
    hide Coherent, Used, Arena, Live, Spans, WellFormed;
    LiveExceptCommutes(Live(one.Segs()), x, y);
    FreeAny(one, x);
    FreeAny(one, y);
    FreeAny(two, y);
    FreeAny(two, x);
    SameQueue(one, two);
  }

  /** Free whatever is allocated at `addr`, if anything is. */
  method FreeAny(arena: VmemArena, addr: nat)
    requires arena.Valid()
    modifies arena
    ensures arena.Valid() && Spans(arena.Segs()) == old(Spans(arena.Segs()))
    ensures Live(arena.Segs()) == LiveExcept(old(Live(arena.Segs())), addr)
  {
    hide Coherent, Used, Arena, WellFormed;
    var r := arena.XFree(addr, 0);
  }

  /** The wrap on a whole arena: the search picks the one free segment for a request at the
      top of the address space, where the arena has no room for it. */
  method WrapServed(hash: nat -> nat) returns (arena: VmemArena, r: AllocResult)
    ensures arena.Valid() && r.Misplaced? && NoRoom(arena.Segs(), 0x2000, 0, TOP - 0x1000, true)
  {
    hide Coherent, WellFormed, Used;
    arena := new VmemArena(hash, 0x1000, 0x8000);
    ghost var q := arena.Segs();
    WrapFacts(q, TOP - 0x1000);
    r := arena.XAlloc(0x2000, 0, TOP - 0x1000, true);
  }

  lemma {:induction false} WrapFacts(q: seq<Seg>, min: nat)
    requires q == [Seg(Span, 0x1000, 0x8000), Seg(Free, 0x1000, 0x8000)] && min == TOP - 0x1000
    ensures !NoneFits(q, 0x2000, 0, min, true) && NoRoom(q, 0x2000, 0, min, true)
    ensures forall addr: nat :: !Granted(q, addr, 0x2000, 0, min, true)
  {
    var f := Seg(Free, 0x1000, 0x8000);
    FitsWordWraps();
    assert q[1] == f && Serves(f, 0x2000, 0, min, true);
  }
}
