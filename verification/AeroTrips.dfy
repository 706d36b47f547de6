/**
 Trips from the server to PHP and back: when a value comes back as it was.

 The size of a value decides. A trip never makes a plain value larger, and makes it smaller
 wherever PHP equates two keys, so a value that comes back unchanged lost nothing at any depth.
*/
module AeroTrips {
  import opened AeroValues
  import opened Counting
  import opened PhpValues
  import opened XorFolds

  function Plus(a: nat, b: nat): nat {
    a + b
  }

  function Sum(xs: seq<nat>): nat {
    Fold(Plus, 0, xs)
  }

  lemma {:induction false} SumAtLeast(xs: seq<nat>)
    requires forall i :: 0 <= i < |xs| ==> xs[i] >= 1
    ensures Sum(xs) >= |xs|
  {
    if xs == [] {
    } else {
      SumAtLeast(xs[..|xs| - 1]);
    }
  }

  lemma SumWithout(xs: seq<nat>, at: nat)
    requires at < |xs|
    ensures Sum(xs) == Sum(Drop(xs, at)) + xs[at]
  {
    FoldWithout(Plus, 0, xs, at);
  }

  /** An injection without its last place, into the sequence without what was there. */
  function Reindex(m: seq<nat>): (r: seq<nat>)
    requires m != []
  {
    var n, at := |m| - 1, m[|m| - 1];
    seq(n, i requires 0 <= i < n => if m[i] <= at then m[i] else m[i] - 1)
  }

  lemma ReindexFits<T>(xs: seq<T>, m: seq<nat>)
    requires m != [] && Injective(m, |xs|)
    ensures var at := m[|m| - 1];
            Injective(Reindex(m), |xs| - 1) &&
            forall i :: 0 <= i < |m| - 1 ==> Drop(xs, at)[Reindex(m)[i]] == xs[m[i]]
  {}

  /** Some of the numbers, each made no larger: the sum is no larger, and equal only if nothing changed. */
  lemma {:induction false} SubSum(ys: seq<nat>, xs: seq<nat>, m: seq<nat>)
    requires |m| == |ys| && Injective(m, |xs|)
    requires forall i :: 0 <= i < |xs| ==> xs[i] >= 1
    requires forall i :: 0 <= i < |ys| ==> ys[i] <= xs[m[i]]
    ensures Sum(ys) <= Sum(xs)
    ensures Sum(ys) == Sum(xs) ==> |ys| == |xs| && forall i :: 0 <= i < |ys| ==> ys[i] == xs[m[i]]
  {
    if ys == [] {
      SumAtLeast(xs);
    } else {
      var n := |ys| - 1;
      var at, front := m[n], ys[..n];
      ReindexFits(xs, m);
      SubSum(front, Drop(xs, at), Reindex(m));
      SumWithout(xs, at);
      assert Sum(ys) == Sum(front) + ys[n];
      if Sum(ys) == Sum(xs) {
        forall i | 0 <= i < n ensures ys[i] == xs[m[i]] {
          assert front[i] == Drop(xs, at)[Reindex(m)[i]];
        }
      }
    }
  }

  // ---------------------------------------------------------------------------------------
  //  Sizes
  // ---------------------------------------------------------------------------------------

  /** The number of nodes of a value. */
  function Size(a: AVal, e: Env): (n: nat)
    requires Admissible(e)
    ensures n >= 1
    decreases a
  {
    match a
    case AList(xs) => 1 + Sum(seq(|xs|, i requires 0 <= i < |xs| => Size(xs[i], e)))
    case AHashMap(m) =>
      var ks := e.enumerate(m);
      assert Enumerates(ks, m);
      1 + Sum(seq(|ks|, i requires 0 <= i < |ks| => Size(ks[i], e)))
        + Sum(seq(|ks|, i requires 0 <= i < |ks| => Size(m[ks[i]], e)))
    case AOrderedMap(m) =>
      var ks := InOrder(m, e);
      1 + Sum(seq(|ks|, i requires 0 <= i < |ks| => Size(ks[i], e)))
        + Sum(seq(|ks|, i requires 0 <= i < |ks| => Size(m[ks[i]], e)))
    case _ => 1
  }

  function Sizes(xs: seq<AVal>, e: Env): (ns: seq<nat>)
    requires Admissible(e)
    ensures |ns| == |xs| && forall i :: 0 <= i < |xs| ==> ns[i] == Size(xs[i], e) >= 1
  {
    seq(|xs|, i requires 0 <= i < |xs| => Size(xs[i], e))
  }

  function Vals(ks: seq<AVal>, m: map<AVal, AVal>): (vs: seq<AVal>)
    requires Enumerates(ks, m)
    ensures |vs| == |ks| && forall i :: 0 <= i < |ks| ==> vs[i] == m[ks[i]]
  {
    seq(|ks|, i requires 0 <= i < |ks| => m[ks[i]])
  }

  /** The keys of a map in the order in which a conversion meets them. */
  function Keys(a: AVal, e: Env): (ks: seq<AVal>)
    requires Admissible(e) && (a.AHashMap? || a.AOrderedMap?)
    ensures Enumerates(ks, Entries(a))
  {
    match a
    case AHashMap(m) => assert Enumerates(e.enumerate(m), m); e.enumerate(m)
    case AOrderedMap(m) => InOrder(m, e)
  }

  function Entries(a: AVal): map<AVal, AVal>
    requires a.AHashMap? || a.AOrderedMap?
  {
    match a
    case AHashMap(m) => m
    case AOrderedMap(m) => m
  }

  lemma SizesAre(ks: seq<AVal>, m: map<AVal, AVal>, e: Env)
    requires Admissible(e) && Enumerates(ks, m)
    ensures Sizes(ks, e) == seq(|ks|, i requires 0 <= i < |ks| => Size(ks[i], e))
    ensures Sizes(Vals(ks, m), e) == seq(|ks|, i requires 0 <= i < |ks| => Size(m[ks[i]], e))
  {}

  lemma SizeOfHashMap(m: map<AVal, AVal>, e: Env)
    requires Admissible(e)
    ensures var ks := Keys(AHashMap(m), e);
            Size(AHashMap(m), e) == 1 + Sum(Sizes(ks, e)) + Sum(Sizes(Vals(ks, m), e))
  {
    SizesAre(Keys(AHashMap(m), e), m, e);
  }

  lemma SizeOfOrderedMap(m: map<AVal, AVal>, e: Env)
    requires Admissible(e)
    ensures var ks := Keys(AOrderedMap(m), e);
            Size(AOrderedMap(m), e) == 1 + Sum(Sizes(ks, e)) + Sum(Sizes(Vals(ks, m), e))
  {
    SizesAre(InOrder(m, e), m, e);
  }

  function MapSize(a: AVal, e: Env): nat
    requires Admissible(e) && (a.AHashMap? || a.AOrderedMap?)
  {
    1 + Sum(Sizes(Keys(a, e), e)) + Sum(Sizes(Vals(Keys(a, e), Entries(a)), e))
  }

  lemma SizeOfMap(a: AVal, e: Env)
    requires Admissible(e) && (a.AHashMap? || a.AOrderedMap?)
    ensures Size(a, e) == MapSize(a, e)
  {
    match a {
      case AHashMap(m) => SizeOfHashMap(m, e);
      case AOrderedMap(m) => SizeOfOrderedMap(m, e);
    }
  }

  // ---------------------------------------------------------------------------------------
  //  What a trip does to a map
  // ---------------------------------------------------------------------------------------

  function PhpPairs(ks: seq<AVal>, m: map<AVal, AVal>, e: Env): (ps: seq<Pair>)
    requires Admissible(e) && Enumerates(ks, m)
    ensures |ps| == |ks| && forall i :: 0 <= i < |ks| ==> ps[i] == Pair(ToPhp(ks[i], e), ToPhp(m[ks[i]], e))
  {
    seq(|ks|, i requires 0 <= i < |ks| => Pair(ToPhp(ks[i], e), ToPhp(m[ks[i]], e)))
  }

  function AeroPairs(ps: seq<Pair>, e: Env): (qs: seq<APair>)
    requires Admissible(e)
    ensures |qs| == |ps| && forall i :: 0 <= i < |ps| ==> qs[i] == APair(ToAero(ps[i].k, e), ToAero(ps[i].v, e))
  {
    seq(|ps|, i requires 0 <= i < |ps| => APair(ToAero(ps[i].k, e), ToAero(ps[i].v, e)))
  }

  /** The places of the entries of a map as the way back meets them: only a hash map has its own order. */
  function Walk(a: AVal, xs: seq<Pair>, e: Env): (m: seq<nat>)
    requires Admissible(e)
    ensures Permutes(m, |xs|)
  {
    if a.AHashMap? then assert Permutes(e.walk(xs), |xs|); e.walk(xs) else seq(|xs|, i requires 0 <= i < |xs| => i as nat)
  }

  /** The entries of a map as PHP holds them: only a hash map merges keys. */
  function HeldEntries(a: AVal, e: Env): seq<Pair>
    requires Admissible(e) && (a.AHashMap? || a.AOrderedMap?)
  {
    var ps := PhpPairs(Keys(a, e), Entries(a), e);
    if a.AHashMap? then Collect(ps) else ps
  }

  /** And in the order in which the way back meets them. */
  function PhpEntries(a: AVal, e: Env): (out: seq<Pair>)
    requires Admissible(e) && (a.AHashMap? || a.AOrderedMap?)
    ensures |out| == |HeldEntries(a, e)|
  {
    Rearranged(HeldEntries(a, e), Walk(a, HeldEntries(a, e), e))
  }

  lemma PhpOfHashMap(m: map<AVal, AVal>, e: Env)
    requires Admissible(e)
    ensures ToPhp(AHashMap(m), e) == HashMap(HeldEntries(AHashMap(m), e))
  {}

  lemma PhpOfOrderedMap(m: map<AVal, AVal>, e: Env)
    requires Admissible(e)
    ensures ToPhp(AOrderedMap(m), e) == OrderedMap(HeldEntries(AOrderedMap(m), e))
  {}

  lemma AeroOfPairs(out: seq<Pair>, e: Env)
    requires Admissible(e)
    ensures ToAero(OrderedMap(out), e) == AOrderedMap(Build(AeroPairs(out, e)))
  {}

  lemma AeroOfEntries(a: AVal, xs: seq<Pair>, e: Env)
    requires Admissible(e)
    ensures var qs := AeroPairs(Rearranged(xs, Walk(a, xs, e)), e);
      && (a.AHashMap? ==> ToAero(HashMap(xs), e) == AHashMap(Build(qs)))
      && (!a.AHashMap? ==> ToAero(OrderedMap(xs), e) == AOrderedMap(Build(qs)))
  {
    if a.AHashMap? {
      AeroOfWalked(xs, e);
    } else {
      assert Rearranged(xs, Walk(a, xs, e)) == xs;
      AeroOfPairs(xs, e);
    }
  }

  lemma AeroOfWalked(xs: seq<Pair>, e: Env)
    requires Admissible(e)
    ensures Permutes(e.walk(xs), |xs|)
    ensures ToAero(HashMap(xs), e) == AHashMap(Build(AeroPairs(Rearranged(xs, e.walk(xs)), e)))
  {
    var m := e.walk(xs);
    assert Permutes(m, |xs|);
    assert AeroPairs(Rearranged(xs, m), e)
        == seq(|m|, i requires 0 <= i < |m| => APair(ToAero(xs[m[i]].k, e), ToAero(xs[m[i]].v, e)));
  }

  /** One entry of a map after the trip. */
  lemma PairTrips(ks: seq<AVal>, m: map<AVal, AVal>, e: Env, i: nat)
    requires Admissible(e) && Enumerates(ks, m) && i < |ks|
    ensures AeroPairs(PhpPairs(ks, m, e), e)[i] == APair(Trip(ks[i], e), Trip(m[ks[i]], e))
  {}

  lemma TripOfMap(a: AVal, e: Env)
    requires Admissible(e) && (a.AHashMap? || a.AOrderedMap?)
    ensures var built := Build(AeroPairs(PhpEntries(a, e), e));
            Trip(a, e) == if a.AHashMap? then AHashMap(built) else AOrderedMap(built)
  {
    AeroOfEntries(a, HeldEntries(a, e), e);
    match a {
      case AHashMap(m) => PhpOfHashMap(m, e);
      case AOrderedMap(m) => PhpOfOrderedMap(m, e);
    }
  }

  // ---------------------------------------------------------------------------------------
  //  No trip makes a plain value larger
  // ---------------------------------------------------------------------------------------

  ghost predicate Drops(a: AVal, e: Env)
    requires Admissible(e)
  {
    Size(Trip(a, e), e) <= Size(a, e) && (Size(Trip(a, e), e) == Size(a, e) ==> Trip(a, e) == a)
  }

  ghost predicate AllDrop(xs: seq<AVal>, e: Env)
    requires Admissible(e)
  {
    forall i :: 0 <= i < |xs| ==> Drops(xs[i], e)
  }

  ghost predicate AllFixed(xs: seq<AVal>, e: Env)
    requires Admissible(e)
  {
    forall i :: 0 <= i < |xs| ==> Trip(xs[i], e) == xs[i]
  }

  /** `ys` are trips of some of the `xs`, told by `m`. */
  lemma ImageSizes(xs: seq<AVal>, ys: seq<AVal>, m: seq<nat>, e: Env)
    requires Admissible(e) && AllDrop(xs, e) && |m| == |ys| && Injective(m, |xs|)
    requires forall i :: 0 <= i < |ys| ==> ys[i] == Trip(xs[m[i]], e)
    ensures Sum(Sizes(ys, e)) <= Sum(Sizes(xs, e))
    ensures Sum(Sizes(ys, e)) == Sum(Sizes(xs, e)) ==> |ys| == |xs| && AllFixed(xs, e)
  {
    forall i | 0 <= i < |ys| ensures Sizes(ys, e)[i] <= Sizes(xs, e)[m[i]] {
      assert Drops(xs[m[i]], e);
    }
    SubSum(Sizes(ys, e), Sizes(xs, e), m);
    if Sum(Sizes(ys, e)) == Sum(Sizes(xs, e)) {
      forall j | 0 <= j < |xs| ensures Trip(xs[j], e) == xs[j] {
        var i := Pigeonhole(m, j);
        assert Sizes(ys, e)[i] == Sizes(xs, e)[m[i]];
        assert Drops(xs[j], e);
      }
    }
  }

  /** Where the keys and values of the map that comes back come from. */
  lemma ReturnedSources(ks: seq<AVal>, m: map<AVal, AVal>, e: Env, out: seq<Pair>, x: seq<nat>, y: seq<nat>, ks': seq<AVal>)
    returns (kappa: seq<nat>, nu: seq<nat>)
    requires Admissible(e) && Enumerates(ks, m) && Sources(out, PhpPairs(ks, m, e), x, y)
    requires Enumerates(ks', Build(AeroPairs(out, e)))
    ensures |kappa| == |nu| == |ks'| <= |out| && Injective(kappa, |ks|) && Injective(nu, |ks|)
    ensures forall i :: 0 <= i < |ks'| ==> ks'[i] == Trip(ks[kappa[i]], e)
    ensures forall i :: 0 <= i < |ks'| ==> Vals(ks', Build(AeroPairs(out, e)))[i] == Trip(Vals(ks, m)[nu[i]], e)
  {
    var d := BuildSources(AeroPairs(out, e), ks');
    kappa := seq(|d|, i requires 0 <= i < |d| => x[d[i]]);
    nu := seq(|d|, i requires 0 <= i < |d| => y[d[i]]);
    InjectionFits(d, |out|);
    ComposeInjective(x, d, |ks|);
    ComposeInjective(y, d, |ks|);
    var vs' := Vals(ks', Build(AeroPairs(out, e)));
    forall i | 0 <= i < |ks'|
      ensures ks'[i] == Trip(ks[kappa[i]], e) && vs'[i] == Trip(Vals(ks, m)[nu[i]], e)
    {
      SourceOf(ks, m, e, out, x, y, d[i]);
    }
  }

  /** An entry that comes back is the trip of one key and the trip of one value. */
  lemma SourceOf(ks: seq<AVal>, m: map<AVal, AVal>, e: Env, out: seq<Pair>, x: seq<nat>, y: seq<nat>, j: nat)
    requires Admissible(e) && Enumerates(ks, m) && Sources(out, PhpPairs(ks, m, e), x, y) && j < |out|
    ensures AeroPairs(out, e)[j] == APair(Trip(ks[x[j]], e), Trip(Vals(ks, m)[y[j]], e))
  {}

  lemma PhpSources(a: AVal, e: Env) returns (x: seq<nat>, y: seq<nat>)
    requires Admissible(e) && (a.AHashMap? || a.AOrderedMap?)
    ensures Sources(PhpEntries(a, e), PhpPairs(Keys(a, e), Entries(a), e), x, y)
  {
    var ps := PhpPairs(Keys(a, e), Entries(a), e);
    if a.AHashMap? {
      x, y := CollectSources(ps);
    } else {
      x := seq(|ps|, i requires 0 <= i < |ps| => i);
      y := x;
    }
    x, y := RearrangedSources(HeldEntries(a, e), ps, x, y, Walk(a, HeldEntries(a, e), e));
  }

  lemma RearrangedSources(out: seq<Pair>, ps: seq<Pair>, x: seq<nat>, y: seq<nat>, m: seq<nat>) returns (x': seq<nat>, y': seq<nat>)
    requires Sources(out, ps, x, y) && Permutes(m, |out|)
    ensures Sources(Rearranged(out, m), ps, x', y')
  {
    x' := seq(|m|, i requires 0 <= i < |m| => x[m[i]]);
    y' := seq(|m|, i requires 0 <= i < |m| => y[m[i]]);
    ComposeInjective(x, m, |ps|);
    ComposeInjective(y, m, |ps|);
  }

  lemma ComposeInjective(x: seq<nat>, d: seq<nat>, n: nat)
    requires Injective(x, n) && Injective(d, |x|)
    ensures Injective(seq(|d|, i requires 0 <= i < |d| => x[d[i]]), n)
  {}

  lemma InjectionFits(d: seq<nat>, n: nat)
    requires Injective(d, n)
    ensures |d| <= n
  {
    SubsetSize(Image(d), Upto(n));
  }

  /** In any order, the keys enumerate the map. */
  lemma RearrangedEnumerates(ks: seq<AVal>, m: map<AVal, AVal>, w: seq<nat>)
    requires Enumerates(ks, m) && Permutes(w, |ks|)
    ensures Enumerates(Rearranged(ks, w), m)
  {
    var ks' := Rearranged(ks, w);
    forall i, j | 0 <= i < j < |ks'| ensures ks'[i] != ks'[j] {
      assert w[i] != w[j];
    }
    forall k | k in m ensures k in ks' {
      assert k in ks;
      var j: nat :| j < |ks| && ks[j] == k;
      var i := Pigeonhole(w, j);
      assert ks'[i] == k;
    }
  }

  /** When no keys merge, the way back meets every entry, in some order. */
  lemma WholeIsRearranged(a: AVal, e: Env)
    requires Admissible(e) && (a.AHashMap? || a.AOrderedMap?) && |PhpEntries(a, e)| == |Keys(a, e)|
    ensures var ps := PhpPairs(Keys(a, e), Entries(a), e);
      |ps| == |Keys(a, e)| && PhpEntries(a, e) == Rearranged(ps, Walk(a, ps, e))
  {
    CollectIsLossless(PhpPairs(Keys(a, e), Entries(a), e));
  }

  /** With fixed children and no merged keys a map is fixed. */
  lemma FixedMap(a: AVal, e: Env)
    requires Admissible(e) && (a.AHashMap? || a.AOrderedMap?)
    requires AllFixed(Keys(a, e), e) && AllFixed(Vals(Keys(a, e), Entries(a)), e)
    requires |PhpEntries(a, e)| == |Keys(a, e)|
    ensures Trip(a, e) == a
  {
    TripOfMap(a, e);
    var ks, m := Keys(a, e), Entries(a);
    var ps := PhpPairs(ks, m, e);
    var w := Walk(a, ps, e);
    WholeIsRearranged(a, e);
    RearrangedEnumerates(ks, m, w);
    var ks', qs := Rearranged(ks, w), AeroPairs(Rearranged(ps, w), e);
    forall i | 0 <= i < |ks'| ensures qs[i] == APair(ks'[i], m[ks'[i]]) {
      FixedPair(ks, m, e, w[i]);
    }
    BuildGivesBack(qs, ks', m);
  }

  lemma FixedPair(ks: seq<AVal>, m: map<AVal, AVal>, e: Env, i: nat)
    requires Admissible(e) && Enumerates(ks, m) && AllFixed(ks, e) && AllFixed(Vals(ks, m), e) && i < |ks|
    ensures var p := PhpPairs(ks, m, e)[i]; ToAero(p.k, e) == ks[i] && ToAero(p.v, e) == m[ks[i]]
  {
    assert Trip(ks[i], e) == ks[i] && Trip(Vals(ks, m)[i], e) == Vals(ks, m)[i];
  }

  /** Keys and values come back no larger. */
  lemma ReturnedSums(a: AVal, built: map<AVal, AVal>, ks': seq<AVal>, e: Env)
    requires Admissible(e) && (a.AHashMap? || a.AOrderedMap?)
    requires AllDrop(Keys(a, e), e) && AllDrop(Vals(Keys(a, e), Entries(a)), e)
    requires built == Build(AeroPairs(PhpEntries(a, e), e)) && Enumerates(ks', built)
    ensures |ks'| <= |PhpEntries(a, e)|
    ensures var ks := Keys(a, e);
            && Sum(Sizes(ks', e)) <= Sum(Sizes(ks, e))
            && (Sum(Sizes(ks', e)) == Sum(Sizes(ks, e)) ==> |ks'| == |ks| && AllFixed(ks, e))
    ensures var vs, vs' := Vals(Keys(a, e), Entries(a)), Vals(ks', built);
            && Sum(Sizes(vs', e)) <= Sum(Sizes(vs, e))
            && (Sum(Sizes(vs', e)) == Sum(Sizes(vs, e)) ==> AllFixed(vs, e))
  {
    var ks, vs := Keys(a, e), Vals(Keys(a, e), Entries(a));
    var x, y := PhpSources(a, e);
    var kappa, nu := ReturnedSources(ks, Entries(a), e, PhpEntries(a, e), x, y, ks');
    ImageSizes(ks, ks', kappa, e);
    ImageSizes(vs, Vals(ks', built), nu, e);
  }

  /** A map comes back no larger, and one that keeps its size kept every entry as it was. */
  lemma ReturnedSizes(a: AVal, t: AVal, e: Env)
    requires Admissible(e) && (a.AHashMap? || a.AOrderedMap?) && (t.AHashMap? || t.AOrderedMap?)
    requires AllDrop(Keys(a, e), e) && AllDrop(Vals(Keys(a, e), Entries(a)), e)
    requires Entries(t) == Build(AeroPairs(PhpEntries(a, e), e))
    ensures MapSize(t, e) <= MapSize(a, e)
    ensures MapSize(t, e) == MapSize(a, e) ==>
              && AllFixed(Keys(a, e), e) && AllFixed(Vals(Keys(a, e), Entries(a)), e)
              && |Keys(a, e)| <= |PhpEntries(a, e)|
  {
    ReturnedSums(a, Entries(t), Keys(t, e), e);
  }

  lemma MapDrops(a: AVal, e: Env)
    requires Admissible(e) && (a.AHashMap? || a.AOrderedMap?)
    requires AllDrop(Keys(a, e), e) && AllDrop(Vals(Keys(a, e), Entries(a)), e)
    ensures Drops(a, e)
    ensures Trip(a, e) == a ==> AllFixed(Keys(a, e), e) && AllFixed(Vals(Keys(a, e), Entries(a)), e)
    ensures Trip(a, e) == a ==> |PhpEntries(a, e)| == |Keys(a, e)|
  {
    TripOfMap(a, e);
    ReturnedSizes(a, Trip(a, e), e);
    SizeOfMap(a, e);
    SizeOfMap(Trip(a, e), e);
    PhpEntriesFit(a, e);
    if Size(Trip(a, e), e) == Size(a, e) {
      FixedMap(a, e);
    }
  }

  lemma PhpEntriesFit(a: AVal, e: Env)
    requires Admissible(e) && (a.AHashMap? || a.AOrderedMap?)
    ensures |PhpEntries(a, e)| <= |Keys(a, e)|
  {
    CollectIsNoLonger(PhpPairs(Keys(a, e), Entries(a), e));
  }

  lemma ListDrops(xs: seq<AVal>, e: Env)
    requires Admissible(e) && AllDrop(xs, e)
    ensures Drops(AList(xs), e)
    ensures Trip(AList(xs), e) == AList(xs) ==> AllFixed(xs, e)
  {
    var ys := TripOfList(xs, e);
    var same := seq(|xs|, i requires 0 <= i < |xs| => i);
    ImageSizes(xs, ys, same, e);
    SizeOfList(xs, e);
    SizeOfList(ys, e);
    if AllFixed(xs, e) {
      assert ys == xs;
    }
  }

  lemma SizeOfList(xs: seq<AVal>, e: Env)
    requires Admissible(e)
    ensures Size(AList(xs), e) == 1 + Sum(Sizes(xs, e))
  {
    assert Sizes(xs, e) == seq(|xs|, i requires 0 <= i < |xs| => Size(xs[i], e));
  }

  lemma TripOfList(xs: seq<AVal>, e: Env) returns (ys: seq<AVal>)
    requires Admissible(e)
    ensures Trip(AList(xs), e) == AList(ys)
    ensures |ys| == |xs| && forall i :: 0 <= i < |xs| ==> ys[i] == Trip(xs[i], e)
  {
    var ps := seq(|xs|, i requires 0 <= i < |xs| => ToPhp(xs[i], e));
    assert ToPhp(AList(xs), e) == List(ps);
    ys := seq(|ps|, i requires 0 <= i < |ps| => ToAero(ps[i], e));
  }

  lemma MapPartsArePlain(a: AVal, e: Env)
    requires Admissible(e) && (a.AHashMap? || a.AOrderedMap?) && Plain(a)
    ensures forall i :: 0 <= i < |Keys(a, e)| ==>
              Plain(Keys(a, e)[i]) && Plain(Vals(Keys(a, e), Entries(a))[i])
  {}

  /** No trip makes a plain value larger, and one that keeps its size changes nothing. */
  lemma {:induction false} TripDrops(a: AVal, e: Env)
    requires Admissible(e) && Plain(a)
    ensures Drops(a, e)
    decreases a
  {
    if a.AList? {
      ItemsDrop(a.items, e);
      ListDrops(a.items, e);
    } else if a.AHashMap? || a.AOrderedMap? {
      MapPartsDrop(a, e);
      MapDrops(a, e);
    } else {
      LeafReturns(a, e);
    }
  }

  lemma ScalarTrip(a: AVal, e: Env)
    requires Scalar(a)
    ensures ScalarToAero(ScalarToPhp(a, e)) == if a.AF32? then AF64(e.widen(a.bits)) else a
  {}

  lemma LeafTrip(a: AVal, e: Env)
    requires Admissible(e) && Scalar(a)
    ensures Trip(a, e) == if a.AF32? then AF64(e.widen(a.bits)) else a
  {
    ScalarTrip(a, e);
    LeafToPhp(a, e);
    LeafToAero(ScalarToPhp(a, e), e);
  }

  lemma LeafToPhp(a: AVal, e: Env)
    requires Admissible(e) && Scalar(a)
    ensures ToPhp(a, e) == ScalarToPhp(a, e)
  {}

  lemma LeafToAero(p: PHPValue, e: Env)
    requires Admissible(e) && Flat(p)
    ensures ToAero(p, e) == ScalarToAero(p)
  {}

  /** Values without parts come back as they are, but for F32, which PHP cannot tell. */
  lemma LeafReturns(a: AVal, e: Env)
    requires Admissible(e) && Scalar(a)
    ensures Scalar(Trip(a, e)) && (!a.AF32? ==> Trip(a, e) == a)
    ensures ToPhp(Trip(a, e), e) == ToPhp(a, e)
  {
    LeafTrip(a, e);
  }

  lemma {:induction false} ItemsDrop(xs: seq<AVal>, e: Env)
    requires Admissible(e) && forall i :: 0 <= i < |xs| ==> Plain(xs[i])
    ensures AllDrop(xs, e)
    decreases xs
  {
    forall i | 0 <= i < |xs| ensures Drops(xs[i], e) {
      TripDrops(xs[i], e);
    }
  }

  lemma {:induction false} MapPartsDrop(a: AVal, e: Env)
    requires Admissible(e) && (a.AHashMap? || a.AOrderedMap?) && Plain(a)
    ensures AllDrop(Keys(a, e), e) && AllDrop(Vals(Keys(a, e), Entries(a)), e)
    decreases a, 0
  {
    MapPartsArePlain(a, e);
    var ks, m := Keys(a, e), Entries(a);
    forall i | 0 <= i < |ks| ensures Drops(ks[i], e) && Drops(m[ks[i]], e) {
      assert ks[i] in m;
      TripDrops(ks[i], e);
      TripDrops(m[ks[i]], e);
    }
  }

  // ---------------------------------------------------------------------------------------
  //  PHP-side maps are well formed
  // ---------------------------------------------------------------------------------------

  /** What comes from the server is a proper `PHPValue`: no hash map in it has two equal keys. */
  lemma {:induction false} ToPhpIsWellFormed(a: AVal, e: Env)
    requires Admissible(e)
    ensures WellFormed(ToPhp(a, e))
    decreases a, 1
  {
    if a.AList? {
      ListIsWellFormed(a, a.items, e);
    } else if a.AMultiResult? {
      ListIsWellFormed(a, a.results, e);
    } else if a.AKeyValueList? {
      forall i | 0 <= i < |a.pairs| ensures WellFormed(ToPhp(a.pairs[i].k, e)) && WellFormed(ToPhp(a.pairs[i].v, e)) {
        PairIsWellFormed(a.pairs[i], e);
      }
    } else if a.AHashMap? || a.AOrderedMap? {
      MapIsWellFormed(a, e);
    } else {
      LeafToPhp(a, e);
    }
  }

  lemma {:induction false} ListIsWellFormed(a: AVal, xs: seq<AVal>, e: Env)
    requires Admissible(e) && (a == AList(xs) || a == AMultiResult(xs))
    ensures WellFormed(ToPhp(a, e))
    decreases a, 0
  {
    forall i | 0 <= i < |xs| ensures WellFormed(ToPhp(xs[i], e)) {
      ToPhpIsWellFormed(xs[i], e);
    }
  }

  lemma PairIsWellFormed(p: APair, e: Env)
    requires Admissible(e)
    ensures WellFormed(ToPhp(p.k, e)) && WellFormed(ToPhp(p.v, e))
    decreases p, 0
  {
    ToPhpIsWellFormed(p.k, e);
    ToPhpIsWellFormed(p.v, e);
  }

  lemma {:induction false} MapIsWellFormed(a: AVal, e: Env)
    requires Admissible(e) && (a.AHashMap? || a.AOrderedMap?)
    ensures WellFormed(ToPhp(a, e))
    decreases a, 0
  {
    var ks, m := Keys(a, e), Entries(a);
    var ps := PhpPairs(ks, m, e);
    forall i | 0 <= i < |ks| ensures WellFormed(ps[i].k) && WellFormed(ps[i].v) {
      assert ks[i] in m;
      ToPhpIsWellFormed(ks[i], e);
      ToPhpIsWellFormed(m[ks[i]], e);
    }
    match a {
      case AHashMap(_) =>
        PhpOfHashMap(m, e);
        var x, y := CollectSources(ps);
      case AOrderedMap(_) =>
        PhpOfOrderedMap(m, e);
    }
  }

  // ---------------------------------------------------------------------------------------
  //  When a value comes back as it was
  // ---------------------------------------------------------------------------------------

  lemma NeverEqual(ps: seq<Pair>, i: nat, j: nat)
    requires Unequal(ps) && i < |ps| && j < |ps| && i != j
    requires WellFormed(ps[i].k) && WellFormed(ps[j].k)
    ensures !Eq(ps[i].k, ps[j].k)
  {
    if j < i && Eq(ps[i].k, ps[j].k) {
      EqSymmetric(ps[i].k, ps[j].k);
    }
  }

  /** A hash map merges no keys exactly when no two of them are equal to PHP. */
  lemma UnequalIsCollisionFree(m: map<AVal, AVal>, e: Env)
    requires Admissible(e)
    ensures Unequal(PhpPairs(Keys(AHashMap(m), e), m, e)) <==> KeysApart(m, e)
  {
    var ks := Keys(AHashMap(m), e);
    var ps := PhpPairs(ks, m, e);
    if Unequal(ps) {
      forall k, l | k in m && l in m && k != l ensures !Eq(ToPhp(k, e), ToPhp(l, e)) {
        TwoKeysApart(ks, m, ps, k, l, e);
      }
    }
    if KeysApart(m, e) {
      ApartIsUnequal(ks, m, ps, e);
    }
  }

  lemma ApartIsUnequal(ks: seq<AVal>, m: map<AVal, AVal>, ps: seq<Pair>, e: Env)
    requires Admissible(e) && Enumerates(ks, m) && KeysApart(m, e) && |ps| == |ks|
    requires forall i :: 0 <= i < |ks| ==> ps[i].k == ToPhp(ks[i], e)
    ensures Unequal(ps)
  {
    forall i, j | 0 <= i < j < |ps| ensures !Eq(ps[i].k, ps[j].k) {
      assert ks[i] in m && ks[j] in m && ks[i] != ks[j];
    }
  }

  lemma TwoKeysApart(ks: seq<AVal>, m: map<AVal, AVal>, ps: seq<Pair>, k: AVal, l: AVal, e: Env)
    requires Admissible(e) && Enumerates(ks, m) && Unequal(ps) && |ps| == |ks|
    requires forall i :: 0 <= i < |ks| ==> ps[i].k == ToPhp(ks[i], e)
    requires k in m && l in m && k != l
    ensures !Eq(ToPhp(k, e), ToPhp(l, e))
  {
    assert k in ks && l in ks;
    var i: nat :| i < |ks| && ks[i] == k;
    var j: nat :| j < |ks| && ks[j] == l;
    ToPhpIsWellFormed(k, e);
    ToPhpIsWellFormed(l, e);
    NeverEqual(ps, i, j);
  }

  lemma {:induction false} FixedIsCollisionFree(a: AVal, e: Env)
    requires Admissible(e) && Plain(a) && Trip(a, e) == a
    ensures CollisionFree(a, e)
    decreases a
  {
    match a {
      case AList(xs) =>
        ItemsDrop(xs, e);
        ListDrops(xs, e);
        forall i | 0 <= i < |xs| ensures CollisionFree(xs[i], e) {
          FixedIsCollisionFree(xs[i], e);
        }
      case AHashMap(m) =>
        FixedMapParts(a, e);
        CollectIsLossless(PhpPairs(Keys(a, e), m, e));
        UnequalIsCollisionFree(m, e);
      case AOrderedMap(m) => FixedMapParts(a, e);
      case _ =>
    }
  }

  lemma {:induction false} FixedMapParts(a: AVal, e: Env)
    requires Admissible(e) && Plain(a) && Trip(a, e) == a && (a.AHashMap? || a.AOrderedMap?)
    ensures |PhpEntries(a, e)| == |Keys(a, e)|
    ensures forall k :: k in Entries(a) ==> CollisionFree(k, e) && CollisionFree(Entries(a)[k], e)
    decreases a, 0
  {
    var ks, m := Keys(a, e), Entries(a);
    MapPartsArePlain(a, e);
    MapPartsDrop(a, e);
    MapDrops(a, e);
    forall k | k in m ensures CollisionFree(k, e) && CollisionFree(m[k], e) {
      assert k in ks;
      var i :| 0 <= i < |ks| && ks[i] == k;
      assert Plain(ks[i]) && Plain(Vals(ks, m)[i]);
      assert Trip(ks[i], e) == ks[i] && Trip(Vals(ks, m)[i], e) == m[k];
      FixedIsCollisionFree(k, e);
      FixedIsCollisionFree(m[k], e);
    }
  }

  lemma {:induction false} CollisionFreeIsFixed(a: AVal, e: Env)
    requires Admissible(e) && Plain(a) && CollisionFree(a, e)
    ensures Trip(a, e) == a
    decreases a, 2
  {
    if a.AList? {
      CollisionFreeListIsFixed(a.items, e);
    } else if a.AHashMap? || a.AOrderedMap? {
      CollisionFreeMapIsFixed(a, e);
    } else {
      LeafReturns(a, e);
    }
  }

  lemma {:induction false} CollisionFreeListIsFixed(xs: seq<AVal>, e: Env)
    requires Admissible(e) && forall i :: 0 <= i < |xs| ==> Plain(xs[i]) && CollisionFree(xs[i], e)
    ensures Trip(AList(xs), e) == AList(xs)
    decreases xs, 0
  {
    var ys := TripOfList(xs, e);
    forall i | 0 <= i < |xs| ensures Trip(xs[i], e) == xs[i] {
      CollisionFreeIsFixed(xs[i], e);
    }
    assert ys == xs;
  }

  lemma {:induction false} CollisionFreeMapIsFixed(a: AVal, e: Env)
    requires Admissible(e) && Plain(a) && CollisionFree(a, e) && (a.AHashMap? || a.AOrderedMap?)
    ensures Trip(a, e) == a
    decreases a, 1
  {
    CollisionFreeParts(a, e);
    WholeEntries(a, e);
    FixedMap(a, e);
  }

  /** A map whose keys PHP tells apart comes back with every entry. */
  lemma WholeEntries(a: AVal, e: Env)
    requires Admissible(e) && (a.AHashMap? || a.AOrderedMap?) && (a.AHashMap? ==> KeysApart(a.m, e))
    ensures var ps := PhpPairs(Keys(a, e), Entries(a), e);
      |ps| == |Keys(a, e)| && HeldEntries(a, e) == ps && PhpEntries(a, e) == Rearranged(ps, Walk(a, ps, e))
  {
    if a.AHashMap? {
      UnequalIsCollisionFree(a.m, e);
      CollectIsLossless(PhpPairs(Keys(a, e), a.m, e));
    }
  }

  lemma {:induction false} CollisionFreeParts(a: AVal, e: Env)
    requires Admissible(e) && Plain(a) && CollisionFree(a, e) && (a.AHashMap? || a.AOrderedMap?)
    ensures AllFixed(Keys(a, e), e) && AllFixed(Vals(Keys(a, e), Entries(a)), e)
    decreases a, 0
  {
    var ks, m := Keys(a, e), Entries(a);
    MapPartsArePlain(a, e);
    forall i | 0 <= i < |ks| ensures Trip(ks[i], e) == ks[i] && Trip(m[ks[i]], e) == m[ks[i]] {
      assert ks[i] in m;
      CollisionFreeIsFixed(ks[i], e);
      CollisionFreeIsFixed(m[ks[i]], e);
    }
  }

  /**
   A value comes back exactly as it was iff it has none of the three forms and no hash map in it
   holds two keys that PHP takes for equal.
  */
  lemma ComesBackExactly(a: AVal, e: Env)
    requires Admissible(e)
    ensures Trip(a, e) == a <==> Plain(a) && CollisionFree(a, e)
  {
    TripIsPlain(a, e);
    if Trip(a, e) == a {
      FixedIsCollisionFree(a, e);
    }
    if Plain(a) && CollisionFree(a, e) {
      CollisionFreeIsFixed(a, e);
    }
  }
}
