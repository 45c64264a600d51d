/** Queues of distinct elements. */
module Queues {
  ghost predicate Distinct<T>(q: seq<T>) {
    forall i, j :: 0 <= i < j < |q| ==> q[i] != q[j]
  }

  lemma {:induction false} TailOf<T>(q: seq<T>)
    requires Distinct(q) && q != []
    ensures Distinct(q[1..]) && q[0] !in q[1..]
    ensures forall x :: x in q <==> x == q[0] || x in q[1..]
  {
    assert q == [q[0]] + q[1..];
  }

  lemma {:induction false} WithLast<T>(q: seq<T>, x: T)
    requires Distinct(q) && x !in q
    ensures Distinct(q + [x]) && forall y :: y in q + [x] <==> y in q || y == x
  {
  }

  lemma {:induction false} WithFirst<T>(x: T, q: seq<T>)
    requires Distinct(q) && x !in q
    ensures Distinct([x] + q) && forall y :: y in [x] + q <==> y in q || y == x
  {
  }

  function Without<T(==, !new)>(l: seq<T>, t: T): (r: seq<T>)
    ensures forall x :: x in r <==> x in l && x != t
  {
    if l == [] then []
    else if l[0] == t then Without(l[1..], t)
    else [l[0]] + Without(l[1..], t)
  }

  lemma {:induction false} WithoutDistinct<T(!new)>(l: seq<T>, t: T)
    requires Distinct(l)
    ensures Distinct(Without(l, t))
  {
    if l != [] {
      WithoutDistinct(l[1..], t);
      var r := Without(l[1..], t);
      assert forall j :: 0 <= j < |r| ==> r[j] in r && r[j] in l[1..];
    }
  }

  lemma {:induction false} WithoutSize<T(!new)>(l: seq<T>, t: T)
    ensures |Without(l, t)| <= |l|
  {
    if l != [] {
      WithoutSize(l[1..], t);
    }
  }

  lemma {:induction false} WithoutAbsent<T(!new)>(l: seq<T>, t: T)
    requires t !in l
    ensures Without(l, t) == l
  {
    if l != [] {
      WithoutAbsent(l[1..], t);
    }
  }

  lemma {:induction false} WithoutAt<T(!new)>(l: seq<T>, i: nat)
    requires Distinct(l) && i < |l|
    ensures Without(l, l[i]) == l[..i] + l[i + 1..]
  {
    TailOf(l);
    if i == 0 {
      WithoutAbsent(l[1..], l[0]);
    } else {
      WithoutAt(l[1..], i - 1);
      assert l[1..][i - 1] == l[i] && l[1..][..i - 1] == l[1..i] && l[1..][i..] == l[i + 1..];
      assert l[0] in l && l[..i] == [l[0]] + l[1..i];
    }
  }
}
