/** Facts about finite sequences that the kernel's queues and event traces rest on. */
module Sequences {

  /** No value occurs twice. */
  ghost predicate NoDup<T>(s: seq<T>) {
    forall i, j :: 0 <= i < j < |s| ==> s[i] != s[j]
  }

  /** The set {0, ..., n-1}. */
  ghost function Below(n: nat): (r: set<nat>)
    ensures |r| == n
    ensures forall x: nat :: x in r <==> x < n
  {
    if n == 0 then {} else Below(n - 1) + {n - 1}
  }

  /** Distinct ids below n fit into n slots: the reason a ring of n ids cannot overflow. */
  lemma {:induction false} Pigeonhole(s: seq<nat>, n: nat)
    requires NoDup(s)
    requires forall x :: x in s ==> x < n
    ensures |s| <= n
  {
    var elems := DistinctElements(s);
    SubsetSize(elems, Below(n));
  }

  lemma {:induction false} DistinctElements(s: seq<nat>) returns (elems: set<nat>)
    requires NoDup(s)
    ensures |elems| == |s|
    ensures forall x :: x in elems ==> x in s
  {
    if s == [] {
      elems := {};
    } else {
      var rest := DistinctElements(s[1..]);
      assert s[0] !in rest;
      elems := rest + {s[0]};
    }
  }

  lemma {:induction false} SubsetSize<T>(a: set<T>, b: set<T>)
    requires a <= b
    ensures |a| <= |b|
  {
    if a != {} {
      var x :| x in a;
      SubsetSize(a - {x}, b - {x});
    }
  }

  /** The concatenation of the images of the elements of s, in order. */
  function FlatMap<A, B>(s: seq<A>, f: A -> seq<B>): seq<B> {
    if s == [] then [] else f(s[0]) + FlatMap(s[1..], f)
  }

  lemma {:induction false} FlatMapConcat<A, B>(a: seq<A>, b: seq<A>, f: A -> seq<B>)
    ensures FlatMap(a + b, f) == FlatMap(a, f) + FlatMap(b, f)
  {
    if a == [] {
      assert a + b == b;
    } else {
      assert (a + b)[1..] == a[1..] + b;
      FlatMapConcat(a[1..], b, f);
    }
  }

  lemma FlatMapOne<A, B>(a: A, f: A -> seq<B>)
    ensures FlatMap([a], f) == f(a)
  {
    assert [a][1..] == [];
    assert f(a) + [] == f(a);
  }

  lemma FlatMapTwo<A, B>(a: A, b: A, f: A -> seq<B>)
    ensures FlatMap([a, b], f) == f(a) + f(b)
  {
    assert [a, b][1..] == [b];
    FlatMapOne(b, f);
  }

  lemma FlatMapFour<A, B>(a: A, b: A, c: A, d: A, f: A -> seq<B>)
    ensures FlatMap([a, b, c, d], f) == f(a) + f(b) + f(c) + f(d)
  {
    assert [a, b, c, d] == [a, b] + [c, d];
    FlatMapConcat([a, b], [c, d], f);
    FlatMapTwo(a, b, f);
    FlatMapTwo(c, d, f);
  }

  lemma {:induction false} FlatMapNone<A, B>(s: seq<A>, f: A -> seq<B>)
    requires forall a :: a in s ==> f(a) == []
    ensures FlatMap(s, f) == []
  {
    if s != [] {
      assert s[0] in s;
      FlatMapNone(s[1..], f);
    }
  }

  /** in0 + p1 == q1 + in1 and in1 + p2 == q2 + in2 give in0 + (p1 + p2) == (q1 + q2) + in2. */
  lemma Chain<T>(in0: seq<T>, in1: seq<T>, in2: seq<T>, p1: seq<T>, p2: seq<T>, q1: seq<T>, q2: seq<T>)
    requires in0 + p1 == q1 + in1 && in1 + p2 == q2 + in2
    ensures in0 + (p1 + p2) == (q1 + q2) + in2
  {
    calc {
      in0 + (p1 + p2);
      (in0 + p1) + p2;
      q1 + (in1 + p2);
      (q1 + q2) + in2;
    }
  }
}
