/**
 `sort` and `dedup`, and why their outcome depends on nothing but the set of the elements.
*/
module Sorting {
  import opened Counting

  ghost predicate StrictTotal<T(!new)>(less: (T, T) -> bool) {
    && (forall a :: !less(a, a))
    && (forall a, b :: less(a, b) || a == b || less(b, a))
    && (forall a, b, c :: less(a, b) && less(b, c) ==> less(a, c))
  }

  ghost predicate Sorted<T(!new)>(less: (T, T) -> bool, xs: seq<T>) {
    forall i, j :: 0 <= i < j < |xs| ==> !less(xs[j], xs[i])
  }

  ghost predicate StrictlySorted<T(!new)>(less: (T, T) -> bool, xs: seq<T>) {
    forall i, j :: 0 <= i < j < |xs| ==> less(xs[i], xs[j])
  }

  function Insert<T>(less: (T, T) -> bool, x: T, xs: seq<T>): seq<T> {
    if xs == [] then [x]
    else if less(xs[0], x) then [xs[0]] + Insert(less, x, xs[1..])
    else [x] + xs
  }

  /** `sort`. */
  function Sort<T>(less: (T, T) -> bool, xs: seq<T>): seq<T> {
    if xs == [] then [] else Insert(less, xs[0], Sort(less, xs[1..]))
  }

  /** `dedup`: of equal neighbours only one stays. */
  function Dedup<T(==)>(xs: seq<T>): seq<T> {
    if |xs| <= 1 then xs
    else if xs[0] == xs[1] then Dedup(xs[1..])
    else [xs[0]] + Dedup(xs[1..])
  }

  lemma InsertPermutes<T(!new)>(less: (T, T) -> bool, x: T, xs: seq<T>)
    ensures multiset(Insert(less, x, xs)) == multiset(xs)[x := multiset(xs)[x] + 1]
  {
    if xs == [] {
    } else {
      assert xs == [xs[0]] + xs[1..];
      InsertPermutes(less, x, xs[1..]);
    }
  }

  lemma SortedCons<T(!new)>(less: (T, T) -> bool, x: T, xs: seq<T>)
    requires Sorted(less, xs) && forall i :: 0 <= i < |xs| ==> !less(xs[i], x)
    ensures Sorted(less, [x] + xs)
  {}

  lemma {:induction false} InsertSorted<T(!new)>(less: (T, T) -> bool, x: T, xs: seq<T>)
    requires StrictTotal(less) && Sorted(less, xs)
    ensures Sorted(less, Insert(less, x, xs))
    ensures forall y :: y in Insert(less, x, xs) ==> y == x || y in xs
  {
    if xs == [] {
    } else {
      if less(xs[0], x) {
        InsertSorted(less, x, xs[1..]);
        var rest := Insert(less, x, xs[1..]);
        forall i | 0 <= i < |rest| ensures !less(rest[i], xs[0]) && (rest[i] == x || rest[i] in xs) {
          assert rest[i] in rest;
          if rest[i] != x {
            var k :| 0 <= k < |xs| - 1 && xs[1..][k] == rest[i];
            assert xs[k + 1] == rest[i];
          }
        }
        SortedCons(less, xs[0], rest);
      } else {
        forall i | 0 <= i < |xs| ensures !less(xs[i], x) {
          assert i > 0 ==> !less(xs[i], xs[0]);
        }
        SortedCons(less, x, xs);
      }
    }
  }

  lemma {:induction false} SortSorts<T(!new)>(less: (T, T) -> bool, xs: seq<T>)
    requires StrictTotal(less)
    ensures Sorted(less, Sort(less, xs)) && multiset(Sort(less, xs)) == multiset(xs)
  {
    if xs == [] {
    } else {
      SortSorts(less, xs[1..]);
      InsertSorted(less, xs[0], Sort(less, xs[1..]));
      InsertPermutes(less, xs[0], Sort(less, xs[1..]));
      assert xs == [xs[0]] + xs[1..];
    }
  }

  lemma {:induction false} DedupOfSorted<T(!new)>(less: (T, T) -> bool, xs: seq<T>)
    requires StrictTotal(less) && Sorted(less, xs)
    ensures StrictlySorted(less, Dedup(xs)) && SameElements(Dedup(xs), xs)
  {
    if |xs| <= 1 {
    } else {
      DedupOfSorted(less, xs[1..]);
      assert xs == [xs[0]] + xs[1..];
      if xs[0] != xs[1] {
        forall y | y in Dedup(xs[1..]) ensures less(xs[0], y) {
          assert y in xs[1..];
          var j :| 1 <= j < |xs| && xs[j] == y;
          assert !less(xs[1], xs[0]) && (j > 1 ==> !less(y, xs[1]));
        }
      }
    }
  }

  lemma SortKeepsElements<T(!new)>(less: (T, T) -> bool, xs: seq<T>)
    requires StrictTotal(less)
    ensures Sorted(less, Sort(less, xs)) && SameElements(Sort(less, xs), xs) && |Sort(less, xs)| == |xs|
  {
    SortSorts(less, xs);
    SameMultiset(Sort(less, xs), xs);
  }

  /** What `sort` and `dedup` leave: the same elements, each once, in increasing order. */
  lemma SortDedup<T(!new)>(less: (T, T) -> bool, xs: seq<T>)
    requires StrictTotal(less)
    ensures StrictlySorted(less, Dedup(Sort(less, xs))) && SameElements(Dedup(Sort(less, xs)), xs)
  {
    SortKeepsElements(less, xs);
    DedupOfSorted(less, Sort(less, xs));
  }

  /** There is only one strictly increasing sequence of the same elements. */
  lemma {:induction false} StrictlySortedIsUnique<T(!new)>(less: (T, T) -> bool, xs: seq<T>, ys: seq<T>)
    requires StrictTotal(less)
    requires StrictlySorted(less, xs) && StrictlySorted(less, ys) && SameElements(xs, ys)
    ensures xs == ys
  {
    assert ys != [] ==> ys[0] in ys;
    if xs == [] {
    } else {
      assert xs[0] in ys && ys[0] in xs;
      assert xs[0] == ys[0];
      forall x ensures x in xs[1..] <==> x in ys[1..] {
        assert x in xs[1..] ==> x in ys && x != ys[0];
        assert x in ys[1..] ==> x in xs && x != xs[0];
      }
      StrictlySortedIsUnique(less, xs[1..], ys[1..]);
      assert xs == [xs[0]] + xs[1..] && ys == [ys[0]] + ys[1..];
    }
  }

  /** Sorting forgets the order in which distinct elements came. */
  lemma SortForgetsOrder<T(!new)>(less: (T, T) -> bool, xs: seq<T>, ys: seq<T>)
    requires StrictTotal(less) && SameElements(xs, ys)
    requires Distinct(xs) && Distinct(ys)
    ensures Sort(less, xs) == Sort(less, ys)
  {
    DistinctSortsStrictly(less, xs);
    DistinctSortsStrictly(less, ys);
    StrictlySortedIsUnique(less, Sort(less, xs), Sort(less, ys));
  }

  lemma DistinctSortsStrictly<T(!new)>(less: (T, T) -> bool, xs: seq<T>)
    requires StrictTotal(less) && Distinct(xs)
    ensures StrictlySorted(less, Sort(less, xs)) && SameElements(Sort(less, xs), xs) && |Sort(less, xs)| == |xs|
  {
    SortSorts(less, xs);
    SortKeepsElements(less, xs);
    PermutedStaysDistinct(Sort(less, xs), xs);
  }

  // ---------------------------------------------------------------------------------------
  //  Lexicographic order
  // ---------------------------------------------------------------------------------------

  /** The order of sequences that an order of their elements induces. */
  predicate Lexicographic<T(==)>(less: (T, T) -> bool, a: seq<T>, b: seq<T>) {
    if b == [] then false
    else if a == [] then true
    else less(a[0], b[0]) || (a[0] == b[0] && Lexicographic(less, a[1..], b[1..]))
  }

  lemma {:induction false} LexicographicIsTotal<T(!new)>(less: (T, T) -> bool, a: seq<T>, b: seq<T>)
    requires StrictTotal(less)
    ensures Lexicographic(less, a, b) || a == b || Lexicographic(less, b, a)
    ensures !Lexicographic(less, a, a)
  {
    if a == [] {
    } else {
      LexicographicIsTotal(less, a[1..], a[1..]);
      if b != [] {
        LexicographicIsTotal(less, a[1..], b[1..]);
        assert a == [a[0]] + a[1..] && b == [b[0]] + b[1..];
      }
    }
  }

  lemma {:induction false} LexicographicIsTransitive<T(!new)>(less: (T, T) -> bool, a: seq<T>, b: seq<T>, c: seq<T>)
    requires StrictTotal(less) && Lexicographic(less, a, b) && Lexicographic(less, b, c)
    ensures Lexicographic(less, a, c)
  {
    if a != [] && a[0] == b[0] && b[0] == c[0] {
      LexicographicIsTransitive(less, a[1..], b[1..], c[1..]);
    }
  }

  /** Sequences are totally ordered when their elements are. */
  lemma LexicographicOrder<T(!new)>(less: (T, T) -> bool, order: (seq<T>, seq<T>) -> bool)
    requires StrictTotal(less) && forall a, b :: order(a, b) == Lexicographic(less, a, b)
    ensures StrictTotal(order)
  {
    forall a, b ensures (order(a, b) || a == b || order(b, a)) && !order(a, a) {
      LexicographicIsTotal(less, a, b);
    }
    forall a, b, c | order(a, b) && order(b, c) ensures order(a, c) {
      LexicographicIsTransitive(less, a, b, c);
    }
  }
}
