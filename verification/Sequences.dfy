/** Two notions about sequences that several modules share. */
module Sequences {
  function Reverse<T>(xs: seq<T>): (r: seq<T>)
    ensures |r| == |xs|
  {
    if xs == [] then [] else Reverse(xs[1..]) + [xs[0]]
  }

  ghost predicate NoDup<T>(xs: seq<T>) {
    forall i, j :: 0 <= i < j < |xs| ==> xs[i] != xs[j]
  }

  lemma {:induction false} ReverseAt<T>(xs: seq<T>, i: nat)
    requires i < |xs|
    ensures Reverse(xs)[i] == xs[|xs| - 1 - i]
  {
    if i < |xs| - 1 {
      ReverseAt(xs[1..], i);
    }
  }

  lemma {:induction false} ReverseHas<T>(xs: seq<T>, x: T)
    ensures x in Reverse(xs) <==> x in xs
  {
    if xs != [] {
      ReverseHas(xs[1..], x);
      assert x in xs <==> x == xs[0] || x in xs[1..];
    }
  }

  lemma ReverseAlone<T>(xs: seq<T>)
    ensures Reverse(xs) + Reverse([]) == [] + Reverse(xs)
  {}

  ghost predicate Mirror<T>(xs: seq<T>, ys: seq<T>) {
    |ys| == |xs| && forall i :: 0 <= i < |xs| ==> ys[i] == xs[|xs| - 1 - i]
  }

  lemma ReverseMirrors<T>(xs: seq<T>)
    ensures Mirror(xs, Reverse(xs))
  {
    forall i | 0 <= i < |xs| ensures Reverse(xs)[i] == xs[|xs| - 1 - i] {
      ReverseAt(xs, i);
    }
  }

  lemma FirstLeaves<T>(xs: seq<T>, ys: seq<T>)
    requires xs != []
    ensures (xs + ys)[0] == xs[0] && (xs + ys)[1..] == xs[1..] + ys
  {}

  lemma MirrorNoDup<T>(xs: seq<T>, ys: seq<T>)
    requires NoDup(xs) && Mirror(xs, ys)
    ensures NoDup(ys)
  {
    forall i, j | 0 <= i < j < |xs| ensures ys[i] != ys[j] {
      assert xs[|xs| - 1 - j] != xs[|xs| - 1 - i];
    }
  }

  function Below(n: nat): (r: set<nat>)
    ensures |r| == n
    ensures forall x :: x in r <==> 0 <= x < n
  {
    if n == 0 then {} else Below(n - 1) + {n - 1}
  }

  function Elements(xs: seq<nat>): (r: set<nat>)
    ensures forall x :: x in r <==> x in xs
    ensures |r| <= |xs|
  {
    if xs == [] then {} else Elements(xs[1..]) + {xs[0]}
  }

  /** n different numbers below n are all of them. */
  lemma {:induction false} Everybody(xs: seq<nat>, n: nat, i: nat)
    requires NoDup(xs) && |xs| == n && (forall k :: 0 <= k < n ==> xs[k] < n) && i < n
    ensures i in xs
  {
    DistinctSize(xs);
    if i !in xs {
      var seen := Elements(xs);
      assert |seen + {i}| == n + 1;
      Fewer(seen + {i}, Below(n));
    }
  }

  lemma {:induction false} DistinctSize(xs: seq<nat>)
    requires NoDup(xs)
    ensures |Elements(xs)| == |xs|
  {
    if xs != [] {
      DistinctSize(xs[1..]);
    }
  }

  lemma Fewer(a: set<nat>, b: set<nat>)
    requires a <= b
    ensures |a| <= |b|
  {
    assert b == a + (b - a);
  }
}
