/**
 Counting: injections, subsets, and sequences that are permutations of each other.
*/
module Counting {

  ghost predicate SameElements<T(!new)>(xs: seq<T>, ys: seq<T>) {
    forall x :: x in xs <==> x in ys
  }

  predicate Distinct<T(==)>(xs: seq<T>) {
    forall i, j :: 0 <= i < j < |xs| ==> xs[i] != xs[j]
  }

  /** Permutations have the same elements. */
  lemma SameMultiset<T(!new)>(xs: seq<T>, ys: seq<T>)
    requires multiset(xs) == multiset(ys)
    ensures |xs| == |ys| && SameElements(xs, ys)
  {
    assert |multiset(xs)| == |xs| && |multiset(ys)| == |ys|;
    forall x ensures x in xs <==> x in ys {
      assert x in xs <==> x in multiset(xs);
      assert x in ys <==> x in multiset(ys);
    }
  }

  lemma {:induction false} OnceInMultiset<T>(xs: seq<T>, x: T)
    requires Distinct(xs)
    ensures multiset(xs)[x] <= 1
  {
    if xs == [] {
    } else {
      var n := |xs| - 1;
      assert xs == xs[..n] + [xs[n]];
      OnceInMultiset(xs[..n], x);
    }
  }

  /** A permutation of distinct elements is distinct. */
  lemma PermutedStaysDistinct<T(!new)>(xs: seq<T>, ys: seq<T>)
    requires multiset(xs) == multiset(ys) && Distinct(ys)
    ensures Distinct(xs)
  {
    forall i, j | 0 <= i < j < |xs|
      ensures xs[i] != xs[j]
    {
      if xs[i] == xs[j] {
        assert xs == xs[..i] + [xs[i]] + xs[i + 1..j] + [xs[j]] + xs[j + 1..];
        OnceInMultiset(ys, xs[i]);
      }
    }
  }

  ghost predicate Injective(m: seq<nat>, n: nat) {
    (forall i :: 0 <= i < |m| ==> m[i] < n) && forall i, j :: 0 <= i < j < |m| ==> m[i] != m[j]
  }

  /** `m` lists the numbers below `n`, each once. */
  ghost predicate Permutes(m: seq<nat>, n: nat) {
    |m| == n && Injective(m, n)
  }

  /** The same elements in the order told by `m`. */
  function Rearranged<T>(xs: seq<T>, m: seq<nat>): (ys: seq<T>)
    requires Permutes(m, |xs|)
    ensures |ys| == |xs| && forall i :: 0 <= i < |xs| ==> ys[i] == xs[m[i]]
  {
    seq(|m|, i requires 0 <= i < |m| => xs[m[i]])
  }

  /** An injection of the first `n` numbers into themselves hits every one of them. */
  lemma {:induction false} Pigeonhole(m: seq<nat>, target: nat) returns (i: nat)
    requires target < |m| && forall x :: 0 <= x < |m| ==> m[x] < |m|
    requires forall x, y :: 0 <= x < y < |m| ==> m[x] != m[y]
    ensures i < |m| && m[i] == target
  {
    if target in m {
      i :| 0 <= i < |m| && m[i] == target;
    } else {
      SubsetSize(Image(m), Upto(|m|) - {target});
      assert false;
    }
  }

  function Image(m: seq<nat>): (s: set<nat>)
    ensures forall x :: x in s <==> x in m
    ensures (forall x, y :: 0 <= x < y < |m| ==> m[x] != m[y]) ==> |s| == |m|
  {
    if m == [] then {} else
      assert m == m[..|m| - 1] + [m[|m| - 1]];
      Image(m[..|m| - 1]) + {m[|m| - 1]}
  }

  function Upto(n: nat): (s: set<nat>)
    ensures |s| == n && forall x: nat :: x in s <==> x < n
  {
    if n == 0 then {} else Upto(n - 1) + {n - 1}
  }

  lemma {:induction false} SubsetSize<T>(a: set<T>, b: set<T>)
    requires a <= b
    ensures |a| <= |b|
  {
    if a == {} {
    } else {
      var x :| x in a;
      SubsetSize(a - {x}, b - {x});
    }
  }

  lemma {:induction false} DistinctSize<T>(xs: seq<T>)
    requires Distinct(xs)
    ensures |set x | x in xs| == |xs|
  {
    if xs == [] {
    } else {
      var n := |xs| - 1;
      DistinctSize(xs[..n]);
      assert (set x | x in xs) == (set x | x in xs[..n]) + {xs[n]};
    }
  }
}
