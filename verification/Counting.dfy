/** Sizes of finite sets and totals of finite maps that differ in one element. */
module Counting {
  function B(b: bool): int {
    if b then 1 else 0
  }

  lemma {:induction false} CardOne<T>(a: set<T>, b: set<T>, k: T)
    requires a - {k} == b - {k}
    ensures |b| == |a| - B(k in a) + B(k in b)
  {
    assert a == (a - {k}) + if k in a then {k} else {};
    assert b == (b - {k}) + if k in b then {k} else {};
  }

  ghost function Member<T>(s: set<T>): (x: T)
    requires s != {}
    ensures x in s
  {
    var x :| x in s; x
  }

  /** The sum of a map's values over some of its keys. */
  ghost function Total(keys: set<int>, m: map<int, nat>): nat
    requires forall k :: k in keys ==> k in m
  {
    if keys == {} then 0 else var k := Member(keys); m[k] + Total(keys - {k}, m)
  }

  lemma {:induction false} TotalAt(keys: set<int>, m: map<int, nat>, k: int)
    requires k in keys && forall x :: x in keys ==> x in m
    ensures Total(keys, m) == m[k] + Total(keys - {k}, m)
    decreases keys
  {
    var j := Member(keys);
    if j != k {
      TotalAt(keys - {j}, m, k);
      TotalAt(keys - {k}, m, j);
      assert keys - {j} - {k} == keys - {k} - {j};
    }
  }

  lemma {:induction false} TotalSame(keys: set<int>, m: map<int, nat>, n: map<int, nat>)
    requires forall x :: x in keys ==> x in m && x in n && m[x] == n[x]
    ensures Total(keys, n) == Total(keys, m)
    decreases keys
  {
    if keys != {} {
      var k := Member(keys);
      TotalAt(keys, m, k);
      TotalAt(keys, n, k);
      TotalSame(keys - {k}, m, n);
    }
  }

  lemma {:induction false} TotalOne(keys: set<int>, m: map<int, nat>, n: map<int, nat>, k: int)
    requires k in keys && (forall x :: x in keys ==> x in m && x in n)
    requires forall x :: x in keys && x != k ==> m[x] == n[x]
    ensures Total(keys, n) == Total(keys, m) - m[k] + n[k]
  {
    TotalAt(keys, m, k);
    TotalAt(keys, n, k);
    TotalSame(keys - {k}, m, n);
  }
}
