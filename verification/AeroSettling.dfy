/**
 When the second trip changes nothing any more. Hash maps may be walked in other orders on the
 second trip than on the first, on the server's side and on PHP's.
*/
module AeroSettling {
  import opened AeroTrips
  import opened AeroValues
  import opened Counting
  import opened PhpValues
  import opened Sorting

  // ---------------------------------------------------------------------------------------
  //  Other iteration orders
  // ---------------------------------------------------------------------------------------

  /** Ordered maps have the same order under both; hash maps may have any. */
  ghost predicate SameOrdered(e: Env, f: Env) {
    Admissible(e) && Admissible(f) && e.less == f.less
  }

  lemma InOrderIsUnique(m: map<AVal, AVal>, e: Env, f: Env)
    requires SameOrdered(e, f)
    ensures InOrder(m, e) == InOrder(m, f)
  {
    forall k ensures k in InOrder(m, e) <==> k in InOrder(m, f) {
      assert k in InOrder(m, e) <==> k in m;
      assert k in InOrder(m, f) <==> k in m;
    }
    StrictlySortedIsUnique(e.less, InOrder(m, e), InOrder(m, f));
  }

  lemma EnumerationSize(ks: seq<AVal>, m: map<AVal, AVal>)
    requires Enumerates(ks, m)
    ensures |ks| == |m|
  {
    DistinctSize(ks);
    assert (set k | k in ks) == m.Keys;
  }

  /** Values equal to equal values are equal. */
  lemma EqThrough(x: PHPValue, x': PHPValue, y: PHPValue, y': PHPValue)
    requires WellFormed(x) && WellFormed(x') && WellFormed(y) && WellFormed(y')
    requires Eq(x, x') && Eq(y, y') && Eq(x', y')
    ensures Eq(x, y)
  {
    EqTransitive(x, x', y');
    EqSymmetric(y, y');
    EqTransitive(x, y', y);
  }

  /**
   A plain value without colliding keys has none under other iteration orders either, and PHP
   gets an equal value.
  */
  lemma {:induction false} SameInAnyOrder(a: AVal, e: Env, f: Env)
    requires SameOrdered(e, f) && Plain(a) && CollisionFree(a, e)
    ensures CollisionFree(a, f) && Eq(ToPhp(a, e), ToPhp(a, f))
    decreases a
  {
    match a {
      case AList(xs) =>
        forall i | 0 <= i < |xs| ensures CollisionFree(xs[i], f) && Eq(ToPhp(xs[i], e), ToPhp(xs[i], f)) {
          SameInAnyOrder(xs[i], e, f);
        }
      case AHashMap(m) =>
        PartsAreSame(a, e, f);
        KeysStayApart(m, e, f);
        SameHashMap(a, e, f);
      case AOrderedMap(m) =>
        PartsAreSame(a, e, f);
        SameOrderedMap(a, e, f);
      case _ =>
    }
  }

  /** The keys and values are the same to PHP under both. */
  ghost predicate SameParts(m: map<AVal, AVal>, e: Env, f: Env)
    requires Admissible(e) && Admissible(f)
  {
    forall k :: k in m ==> Eq(ToPhp(k, e), ToPhp(k, f)) && Eq(ToPhp(m[k], e), ToPhp(m[k], f))
  }

  lemma {:induction false} PartsAreSame(a: AVal, e: Env, f: Env)
    requires SameOrdered(e, f) && Plain(a) && CollisionFree(a, e) && (a.AHashMap? || a.AOrderedMap?)
    ensures SameParts(Entries(a), e, f)
    ensures forall k :: k in Entries(a) ==> CollisionFree(k, f) && CollisionFree(Entries(a)[k], f)
    decreases a, 0
  {
    var m := Entries(a);
    forall k | k in m
      ensures Eq(ToPhp(k, e), ToPhp(k, f)) && Eq(ToPhp(m[k], e), ToPhp(m[k], f))
      ensures CollisionFree(k, f) && CollisionFree(m[k], f)
    {
      SameInAnyOrder(k, e, f);
      SameInAnyOrder(m[k], e, f);
    }
  }

  lemma KeysStayApart(m: map<AVal, AVal>, e: Env, f: Env)
    requires Admissible(e) && Admissible(f) && SameParts(m, e, f) && KeysApart(m, e)
    ensures KeysApart(m, f)
  {
    forall k, l | k in m && l in m && k != l ensures !Eq(ToPhp(k, f), ToPhp(l, f)) {
      ToPhpIsWellFormed(k, e);
      ToPhpIsWellFormed(l, e);
      ToPhpIsWellFormed(k, f);
      ToPhpIsWellFormed(l, f);
      if Eq(ToPhp(k, f), ToPhp(l, f)) {
        EqThrough(ToPhp(k, e), ToPhp(k, f), ToPhp(l, e), ToPhp(l, f));
      }
    }
  }

  lemma SameOrderedMap(a: AVal, e: Env, f: Env)
    requires SameOrdered(e, f) && a.AOrderedMap? && SameParts(a.o, e, f)
    ensures Eq(ToPhp(a, e), ToPhp(a, f))
  {
    InOrderIsUnique(a.o, e, f);
    PhpOfOrderedMap(a.o, e);
    PhpOfOrderedMap(a.o, f);
    var ks := Keys(a, e);
    var ps, qs := PhpPairs(ks, a.o, e), PhpPairs(ks, a.o, f);
    forall i | 0 <= i < |ks| ensures SamePair(ps[i], qs[i]) {
      assert ks[i] in a.o;
    }
  }

  lemma SameHashMap(a: AVal, e: Env, f: Env)
    requires Admissible(e) && Admissible(f) && a.AHashMap? && SameParts(a.m, e, f) && KeysApart(a.m, e) && KeysApart(a.m, f)
    ensures Eq(ToPhp(a, e), ToPhp(a, f))
  {
    WholeEntries(a, e);
    WholeEntries(a, f);
    PhpOfHashMap(a.m, e);
    PhpOfHashMap(a.m, f);
    EnumerationSize(Keys(a, e), a.m);
    EnumerationSize(Keys(a, f), a.m);
    var ps, qs := PhpPairs(Keys(a, e), a.m, e), PhpPairs(Keys(a, f), a.m, f);
    forall i | 0 <= i < |ps| ensures HasPair(qs, ps[i]) {
      FoundUnderOther(a, e, f, i);
    }
  }

  lemma FoundUnderOther(a: AVal, e: Env, f: Env, i: nat)
    requires Admissible(e) && Admissible(f) && a.AHashMap? && SameParts(a.m, e, f) && i < |Keys(a, e)|
    ensures HasPair(PhpPairs(Keys(a, f), a.m, f), PhpPairs(Keys(a, e), a.m, e)[i])
  {
    var k := Keys(a, e)[i];
    var qs := PhpPairs(Keys(a, f), a.m, f);
    assert k in a.m && k in Keys(a, f);
    var j: nat :| j < |Keys(a, f)| && Keys(a, f)[j] == k;
    assert SamePair(PhpPairs(Keys(a, e), a.m, e)[i], qs[j]);
  }

  /**
   One trip lands on a fixed point iff what it lands on has no colliding keys left, whatever
   orders the second trip meets.
  */
  lemma SecondTripIsIdentityExactly(a: AVal, e: Env, f: Env)
    requires SameOrdered(e, f)
    ensures Trip(Trip(a, e), f) == Trip(a, e) <==> CollisionFree(Trip(a, e), e)
  {
    var t := Trip(a, e);
    TripIsPlain(a, e);
    ComesBackExactly(t, f);
    if CollisionFree(t, e) {
      SameInAnyOrder(t, e, f);
    }
    if CollisionFree(t, f) {
      SameInAnyOrder(t, f, e);
    }
  }

  // ---------------------------------------------------------------------------------------
  //  When one trip settles a value
  // ---------------------------------------------------------------------------------------

  /** Keys that PHP tells apart become one server key, or PHP tells them apart again. */
  ghost predicate StayApart(k: AVal, l: AVal, e: Env)
    requires Admissible(e)
  {
    || Eq(ToPhp(k, e), ToPhp(l, e))
    || Trip(k, e) == Trip(l, e)
    || !Eq(ToPhp(Trip(k, e), e), ToPhp(Trip(l, e), e))
  }

  /** So it is for the keys of every hash map, at any depth. */
  ghost predicate KeysSettle(a: AVal, e: Env)
    requires Admissible(e)
    decreases a
  {
    match a
    case AList(xs) => forall i :: 0 <= i < |xs| ==> KeysSettle(xs[i], e)
    case AMultiResult(xs) => forall i :: 0 <= i < |xs| ==> KeysSettle(xs[i], e)
    case AKeyValueList(ps) => forall i :: 0 <= i < |ps| ==> KeysSettle(ps[i].k, e) && KeysSettle(ps[i].v, e)
    case AOrderedMap(m) => forall k :: k in m ==> KeysSettle(k, e) && KeysSettle(m[k], e)
    case AHashMap(m) =>
      && (forall k, l :: k in m && l in m ==> StayApart(k, l, e))
      && forall k :: k in m ==> KeysSettle(k, e) && KeysSettle(m[k], e)
    case _ => true
  }

  lemma BuildOfCollisionFree(ps: seq<APair>, e: Env)
    requires Admissible(e)
    requires forall i :: 0 <= i < |ps| ==> CollisionFree(ps[i].k, e) && CollisionFree(ps[i].v, e)
    ensures forall k :: k in Build(ps) ==> CollisionFree(k, e) && CollisionFree(Build(ps)[k], e)
  {
    forall k | k in Build(ps) ensures CollisionFree(k, e) && CollisionFree(Build(ps)[k], e) {
      var d := BuildSource(ps, k);
    }
  }

  lemma {:induction false} SettledReturnsFree(a: AVal, e: Env)
    requires Admissible(e) && KeysSettle(a, e)
    ensures CollisionFree(Trip(a, e), e)
    decreases a
  {
    match a {
      case AList(xs) => ListSettles(xs, e);
      case AMultiResult(xs) =>
        ListSettles(xs, e);
        ResultsReadAsList(xs, e);
      case AKeyValueList(ps) => PairsSettle(ps, e);
      case AHashMap(_) => HashMapSettles(a, e);
      case AOrderedMap(_) => OrderedMapSettles(a, e);
      case _ => LeafReturns(a, e);
    }
  }

  lemma ResultsReadAsList(xs: seq<AVal>, e: Env)
    requires Admissible(e)
    ensures Trip(AMultiResult(xs), e) == Trip(AList(xs), e)
  {}

  lemma {:induction false} ListSettles(xs: seq<AVal>, e: Env)
    requires Admissible(e) && forall i :: 0 <= i < |xs| ==> KeysSettle(xs[i], e)
    ensures CollisionFree(Trip(AList(xs), e), e)
    decreases xs
  {
    var ys := TripOfList(xs, e);
    forall i | 0 <= i < |xs| ensures CollisionFree(ys[i], e) {
      SettledReturnsFree(xs[i], e);
    }
  }

  lemma {:induction false} PairSettles(p: APair, e: Env)
    requires Admissible(e) && KeysSettle(p.k, e) && KeysSettle(p.v, e)
    ensures CollisionFree(Trip(p.k, e), e) && CollisionFree(Trip(p.v, e), e)
    decreases p
  {
    SettledReturnsFree(p.k, e);
    SettledReturnsFree(p.v, e);
  }

  function TripPairs(ps: seq<APair>, e: Env): (qs: seq<APair>)
    requires Admissible(e)
    ensures |qs| == |ps| && forall i :: 0 <= i < |ps| ==> qs[i] == APair(Trip(ps[i].k, e), Trip(ps[i].v, e))
  {
    seq(|ps|, i requires 0 <= i < |ps| => APair(Trip(ps[i].k, e), Trip(ps[i].v, e)))
  }

  lemma TripOfPairs(ps: seq<APair>, e: Env)
    requires Admissible(e)
    ensures Trip(AKeyValueList(ps), e) == AOrderedMap(Build(TripPairs(ps, e)))
  {
    var out := seq(|ps|, i requires 0 <= i < |ps| => Pair(ToPhp(ps[i].k, e), ToPhp(ps[i].v, e)));
    assert ToPhp(AKeyValueList(ps), e) == OrderedMap(out);
    AeroOfPairs(out, e);
    assert AeroPairs(out, e) == TripPairs(ps, e);
  }

  lemma {:induction false} PairsSettle(ps: seq<APair>, e: Env)
    requires Admissible(e) && forall i :: 0 <= i < |ps| ==> KeysSettle(ps[i].k, e) && KeysSettle(ps[i].v, e)
    ensures CollisionFree(Trip(AKeyValueList(ps), e), e)
    decreases ps
  {
    TripOfPairs(ps, e);
    var qs := TripPairs(ps, e);
    forall i | 0 <= i < |ps| ensures CollisionFree(qs[i].k, e) && CollisionFree(qs[i].v, e) {
      PairSettles(ps[i], e);
    }
    BuildOfCollisionFree(qs, e);
  }

  /** What comes back of a map with settled parts: no colliding keys inside keys or values. */
  lemma {:induction false} EntriesSettle(a: AVal, x: seq<nat>, y: seq<nat>, e: Env)
    requires Admissible(e) && (a.AHashMap? || a.AOrderedMap?) && KeysSettle(a, e)
    requires Sources(PhpEntries(a, e), PhpPairs(Keys(a, e), Entries(a), e), x, y)
    ensures var built := Build(AeroPairs(PhpEntries(a, e), e));
      forall k :: k in built ==> CollisionFree(k, e) && CollisionFree(built[k], e)
    decreases a, 0
  {
    var ks, m := Keys(a, e), Entries(a);
    var out := PhpEntries(a, e);
    var qs := AeroPairs(out, e);
    forall j | 0 <= j < |out| ensures CollisionFree(qs[j].k, e) && CollisionFree(qs[j].v, e) {
      assert ks[x[j]] in m && ks[y[j]] in m;
      SettledReturnsFree(ks[x[j]], e);
      SettledReturnsFree(m[ks[y[j]]], e);
    }
    BuildOfCollisionFree(qs, e);
  }

  lemma {:induction false} OrderedMapSettles(a: AVal, e: Env)
    requires Admissible(e) && a.AOrderedMap? && KeysSettle(a, e)
    ensures CollisionFree(Trip(a, e), e)
    decreases a, 1
  {
    TripOfMap(a, e);
    var x, y := PhpSources(a, e);
    EntriesSettle(a, x, y, e);
  }

  lemma {:induction false} HashMapSettles(a: AVal, e: Env)
    requires Admissible(e) && a.AHashMap? && KeysSettle(a, e)
    ensures CollisionFree(Trip(a, e), e)
    decreases a, 1
  {
    TripOfMap(a, e);
    var ks, m := Keys(a, e), Entries(a);
    var ps, out := PhpPairs(ks, m, e), PhpEntries(a, e);
    var x, y := PhpSources(a, e);
    EntriesSettle(a, x, y, e);
    HeldKeysDiffer(a, e);
    var built := Build(AeroPairs(out, e));
    forall k, l | k in built && l in built && k != l ensures !Eq(ToPhp(k, e), ToPhp(l, e)) {
      BuiltKeysApart(ks, m, ps, out, x, y, k, l, e);
    }
  }

  /** PHP holds no two equal keys, in whatever order it walks them. */
  lemma HeldKeysDiffer(a: AVal, e: Env)
    requires Admissible(e) && a.AHashMap?
    ensures Unequal(PhpEntries(a, e))
  {
    var held := HeldEntries(a, e);
    ToPhpIsWellFormed(a, e);
    PhpOfHashMap(a.m, e);
    var w := Walk(a, held, e);
    forall i, j | 0 <= i < j < |held| ensures !Eq(held[w[i]].k, held[w[j]].k) {
      NeverEqual(held, w[i], w[j]);
    }
  }

  /** Keys that were kept apart and came back different are apart once more. */
  lemma BuiltKeysApart(ks: seq<AVal>, m: map<AVal, AVal>, ps: seq<Pair>, out: seq<Pair>, x: seq<nat>, y: seq<nat>, k: AVal, l: AVal, e: Env)
    requires Admissible(e) && Enumerates(ks, m) && ps == PhpPairs(ks, m, e) && Sources(out, ps, x, y) && Unequal(out)
    requires forall k, l :: k in m && l in m ==> StayApart(k, l, e)
    requires k in Build(AeroPairs(out, e)) && l in Build(AeroPairs(out, e)) && k != l
    ensures !Eq(ToPhp(k, e), ToPhp(l, e))
  {
    var i := BuildSource(AeroPairs(out, e), k);
    var j := BuildSource(AeroPairs(out, e), l);
    var k', l' := ks[x[i]], ks[x[j]];
    assert k' in m && l' in m && k == Trip(k', e) && l == Trip(l', e);
    ToPhpIsWellFormed(k', e);
    ToPhpIsWellFormed(l', e);
    NeverEqual(out, i, j);
    assert StayApart(k', l', e);
  }

  /**
   One trip settles every value in whose hash maps the keys that PHP tells apart become one
   server key or stay apart. This is a condition on the value alone.
  */
  lemma SettledNeedsOneTrip(a: AVal, e: Env, f: Env)
    requires SameOrdered(e, f) && KeysSettle(a, e)
    ensures Trip(Trip(a, e), f) == Trip(a, e)
  {
    SettledReturnsFree(a, e);
    SecondTripIsIdentityExactly(a, e, f);
  }

  // ---------------------------------------------------------------------------------------
  //  The converse, where the first trip loses no entry
  // ---------------------------------------------------------------------------------------

  ghost predicate TripsDiffer(m: map<AVal, AVal>, e: Env)
    requires Admissible(e)
  {
    forall k, l :: k in m && l in m && k != l ==> Trip(k, e) != Trip(l, e)
  }

  /** No entry is merged away by the first trip, neither by PHP nor on the way back. */
  ghost predicate LosesNothing(a: AVal, e: Env)
    requires Admissible(e)
    decreases a
  {
    match a
    case AList(xs) => forall i :: 0 <= i < |xs| ==> LosesNothing(xs[i], e)
    case AMultiResult(xs) => forall i :: 0 <= i < |xs| ==> LosesNothing(xs[i], e)
    case AKeyValueList(ps) =>
      && (forall i, j :: 0 <= i < j < |ps| ==> Trip(ps[i].k, e) != Trip(ps[j].k, e))
      && forall i :: 0 <= i < |ps| ==> LosesNothing(ps[i].k, e) && LosesNothing(ps[i].v, e)
    case AOrderedMap(m) => TripsDiffer(m, e) && forall k :: k in m ==> LosesNothing(k, e) && LosesNothing(m[k], e)
    case AHashMap(m) =>
      KeysApart(m, e) && TripsDiffer(m, e) && forall k :: k in m ==> LosesNothing(k, e) && LosesNothing(m[k], e)
    case _ => true
  }

  ghost predicate KeysDiffer(ps: seq<APair>) {
    forall i, j :: 0 <= i < j < |ps| ==> ps[i].k != ps[j].k
  }

  /** With different keys every pair has its entry. */
  lemma BuildKeepsAll(ps: seq<APair>, i: nat)
    requires KeysDiffer(ps) && i < |ps|
    ensures ps[i].k in Build(ps) && Build(ps)[ps[i].k] == ps[i].v
  {
    BuildHasEveryKey(ps, i);
    var d := BuildSource(ps, ps[i].k);
  }

  /** A map that loses nothing comes back entry by entry. */
  lemma MapReturnsWhole(a: AVal, e: Env, k: AVal)
    requires Admissible(e) && (a.AHashMap? || a.AOrderedMap?) && LosesNothing(a, e) && k in Entries(a)
    ensures var t := Trip(a, e);
      && t.AHashMap? == a.AHashMap? && (t.AHashMap? || t.AOrderedMap?)
      && Trip(k, e) in Entries(t) && Entries(t)[Trip(k, e)] == Trip(Entries(a)[k], e)
  {
    TripOfMap(a, e);
    WholeEntries(a, e);
    var ps := PhpPairs(Keys(a, e), Entries(a), e);
    PairReturns(Keys(a, e), Entries(a), Walk(a, ps, e), k, e);
  }

  /** In whatever order the pairs are walked, each has its entry. */
  lemma PairReturns(ks: seq<AVal>, m: map<AVal, AVal>, w: seq<nat>, k: AVal, e: Env)
    requires Admissible(e) && Enumerates(ks, m) && TripsDiffer(m, e) && Permutes(w, |ks|) && k in m
    ensures var built := Build(AeroPairs(Rearranged(PhpPairs(ks, m, e), w), e));
      Trip(k, e) in built && built[Trip(k, e)] == Trip(m[k], e)
  {
    RearrangedEnumerates(ks, m, w);
    var ks' := Rearranged(ks, w);
    assert Rearranged(PhpPairs(ks, m, e), w) == PhpPairs(ks', m, e);
    var qs := AeroPairs(PhpPairs(ks', m, e), e);
    assert k in ks';
    var i: nat :| i < |ks'| && ks'[i] == k;
    PairsDiffer(ks', m, e);
    BuildKeepsAll(qs, i);
  }

  lemma PairsDiffer(ks: seq<AVal>, m: map<AVal, AVal>, e: Env)
    requires Admissible(e) && Enumerates(ks, m) && TripsDiffer(m, e)
    ensures KeysDiffer(AeroPairs(PhpPairs(ks, m, e), e))
  {
    forall i, j | 0 <= i < j < |ks| ensures Trip(ks[i], e) != Trip(ks[j], e) {
      assert ks[i] in m && ks[j] in m && ks[i] != ks[j];
    }
  }

  lemma {:induction false} FreeReturnIsSettled(a: AVal, e: Env)
    requires Admissible(e) && LosesNothing(a, e) && CollisionFree(Trip(a, e), e)
    ensures KeysSettle(a, e)
    decreases a
  {
    match a {
      case AList(xs) => FreeListIsSettled(xs, e);
      case AMultiResult(xs) =>
        ResultsReadAsList(xs, e);
        FreeListIsSettled(xs, e);
      case AKeyValueList(ps) => FreePairsAreSettled(ps, e);
      case AHashMap(m) =>
        FreeMapIsSettled(a, e);
        forall k, l | k in m && l in m ensures StayApart(k, l, e) {
          MapReturnsWhole(a, e, k);
          MapReturnsWhole(a, e, l);
        }
      case AOrderedMap(_) => FreeMapIsSettled(a, e);
      case _ =>
    }
  }

  lemma {:induction false} FreeListIsSettled(xs: seq<AVal>, e: Env)
    requires Admissible(e) && (forall i :: 0 <= i < |xs| ==> LosesNothing(xs[i], e)) && CollisionFree(Trip(AList(xs), e), e)
    ensures forall i :: 0 <= i < |xs| ==> KeysSettle(xs[i], e)
    decreases xs
  {
    var ys := TripOfList(xs, e);
    forall i | 0 <= i < |xs| ensures KeysSettle(xs[i], e) {
      assert CollisionFree(ys[i], e);
      FreeReturnIsSettled(xs[i], e);
    }
  }

  lemma {:induction false} FreePairIsSettled(p: APair, e: Env)
    requires Admissible(e) && LosesNothing(p.k, e) && LosesNothing(p.v, e)
    requires CollisionFree(Trip(p.k, e), e) && CollisionFree(Trip(p.v, e), e)
    ensures KeysSettle(p.k, e) && KeysSettle(p.v, e)
    decreases p
  {
    FreeReturnIsSettled(p.k, e);
    FreeReturnIsSettled(p.v, e);
  }

  lemma {:induction false} FreePairsAreSettled(ps: seq<APair>, e: Env)
    requires Admissible(e) && LosesNothing(AKeyValueList(ps), e) && CollisionFree(Trip(AKeyValueList(ps), e), e)
    ensures forall i :: 0 <= i < |ps| ==> KeysSettle(ps[i].k, e) && KeysSettle(ps[i].v, e)
    decreases ps
  {
    TripOfPairs(ps, e);
    var qs := TripPairs(ps, e);
    forall i | 0 <= i < |ps| ensures KeysSettle(ps[i].k, e) && KeysSettle(ps[i].v, e) {
      BuildKeepsAll(qs, i);
      FreePairIsSettled(ps[i], e);
    }
  }

  lemma {:induction false} FreeMapIsSettled(a: AVal, e: Env)
    requires Admissible(e) && (a.AHashMap? || a.AOrderedMap?) && LosesNothing(a, e) && CollisionFree(Trip(a, e), e)
    ensures forall k :: k in Entries(a) ==> KeysSettle(k, e) && KeysSettle(Entries(a)[k], e)
    decreases a, 0
  {
    forall k | k in Entries(a) ensures KeysSettle(k, e) && KeysSettle(Entries(a)[k], e) {
      MapReturnsWhole(a, e, k);
      FreeReturnIsSettled(k, e);
      FreeReturnIsSettled(Entries(a)[k], e);
    }
  }

  /** Of the values whose first trip loses no entry, exactly those settle after one trip. */
  lemma SettlesExactly(a: AVal, e: Env, f: Env)
    requires SameOrdered(e, f) && LosesNothing(a, e)
    ensures Trip(Trip(a, e), f) == Trip(a, e) <==> KeysSettle(a, e)
  {
    SecondTripIsIdentityExactly(a, e, f);
    if KeysSettle(a, e) {
      SettledReturnsFree(a, e);
    }
    if CollisionFree(Trip(a, e), e) {
      FreeReturnIsSettled(a, e);
    }
  }

  // ---------------------------------------------------------------------------------------
  //  Keys that PHP finds again
  // ---------------------------------------------------------------------------------------

  /** To PHP, every hash-map key, at any depth, comes back equal to what it was. */
  ghost predicate KeysReturn(a: AVal, e: Env)
    requires Admissible(e)
    decreases a
  {
    match a
    case AList(xs) => forall i :: 0 <= i < |xs| ==> KeysReturn(xs[i], e)
    case AMultiResult(xs) => forall i :: 0 <= i < |xs| ==> KeysReturn(xs[i], e)
    case AKeyValueList(ps) => forall i :: 0 <= i < |ps| ==> KeysReturn(ps[i].k, e) && KeysReturn(ps[i].v, e)
    case AOrderedMap(m) => forall k :: k in m ==> KeysReturn(k, e) && KeysReturn(m[k], e)
    case AHashMap(m) =>
      forall k :: k in m ==> Eq(ToPhp(Trip(k, e), e), ToPhp(k, e)) && KeysReturn(k, e) && KeysReturn(m[k], e)
    case _ => true
  }

  lemma ReturningStayApart(k: AVal, l: AVal, e: Env)
    requires Admissible(e) && Eq(ToPhp(Trip(k, e), e), ToPhp(k, e)) && Eq(ToPhp(Trip(l, e), e), ToPhp(l, e))
    ensures StayApart(k, l, e)
  {
    var k', l' := ToPhp(Trip(k, e), e), ToPhp(Trip(l, e), e);
    ToPhpIsWellFormed(k, e);
    ToPhpIsWellFormed(l, e);
    ToPhpIsWellFormed(Trip(k, e), e);
    ToPhpIsWellFormed(Trip(l, e), e);
    if Eq(k', l') {
      EqSymmetric(k', ToPhp(k, e));
      EqTransitive(ToPhp(k, e), k', l');
      EqTransitive(ToPhp(k, e), l', ToPhp(l, e));
    }
  }

  lemma {:induction false} ReturningKeysSettle(a: AVal, e: Env)
    requires Admissible(e) && KeysReturn(a, e)
    ensures KeysSettle(a, e)
    decreases a
  {
    match a {
      case AList(xs) => forall i | 0 <= i < |xs| ensures KeysSettle(xs[i], e) { ReturningKeysSettle(xs[i], e); }
      case AMultiResult(xs) => forall i | 0 <= i < |xs| ensures KeysSettle(xs[i], e) { ReturningKeysSettle(xs[i], e); }
      case AKeyValueList(ps) =>
        forall i | 0 <= i < |ps| ensures KeysSettle(ps[i].k, e) && KeysSettle(ps[i].v, e) {
          ReturningPairSettles(ps[i], e);
        }
      case AHashMap(m) =>
        ReturningEntriesSettle(a, e);
        forall k, l | k in m && l in m ensures StayApart(k, l, e) {
          ReturningStayApart(k, l, e);
        }
      case AOrderedMap(m) => ReturningEntriesSettle(a, e);
      case _ =>
    }
  }

  lemma {:induction false} ReturningPairSettles(p: APair, e: Env)
    requires Admissible(e) && KeysReturn(p.k, e) && KeysReturn(p.v, e)
    ensures KeysSettle(p.k, e) && KeysSettle(p.v, e)
    decreases p
  {
    ReturningKeysSettle(p.k, e);
    ReturningKeysSettle(p.v, e);
  }

  lemma {:induction false} ReturningEntriesSettle(a: AVal, e: Env)
    requires Admissible(e) && (a.AHashMap? || a.AOrderedMap?) && KeysReturn(a, e)
    ensures forall k :: k in Entries(a) ==> KeysSettle(k, e) && KeysSettle(Entries(a)[k], e)
    decreases a, 0
  {
    forall k | k in Entries(a) ensures KeysSettle(k, e) && KeysSettle(Entries(a)[k], e) {
      ReturningKeysSettle(k, e);
      ReturningKeysSettle(Entries(a)[k], e);
    }
  }

  /** When PHP finds every hash-map key again after a trip, one trip lands on a fixed point. */
  lemma ReturningKeysNeedOneTrip(a: AVal, e: Env, f: Env)
    requires SameOrdered(e, f) && KeysReturn(a, e)
    ensures Trip(Trip(a, e), f) == Trip(a, e)
  {
    ReturningKeysSettle(a, e);
    SettledNeedsOneTrip(a, e, f);
  }

  /** A key without parts, or one that a trip leaves alone. */
  ghost predicate SimpleKey(k: AVal, e: Env)
    requires Admissible(e)
  {
    Scalar(k) || (Plain(k) && CollisionFree(k, e))
  }

  lemma SimpleKeyReturns(k: AVal, e: Env)
    requires Admissible(e) && SimpleKey(k, e)
    ensures ToPhp(Trip(k, e), e) == ToPhp(k, e)
  {
    if Scalar(k) {
      LeafReturns(k, e);
    } else {
      CollisionFreeIsFixed(k, e);
    }
  }

  /** Every hash map, at any depth, is keyed by such values. */
  ghost predicate SimpleKeys(a: AVal, e: Env)
    requires Admissible(e)
    decreases a
  {
    match a
    case AList(xs) => forall i :: 0 <= i < |xs| ==> SimpleKeys(xs[i], e)
    case AMultiResult(xs) => forall i :: 0 <= i < |xs| ==> SimpleKeys(xs[i], e)
    case AKeyValueList(ps) => forall i :: 0 <= i < |ps| ==> SimpleKeys(ps[i].k, e) && SimpleKeys(ps[i].v, e)
    case AOrderedMap(m) => forall k :: k in m ==> SimpleKeys(k, e) && SimpleKeys(m[k], e)
    case AHashMap(m) => forall k :: k in m ==> SimpleKey(k, e) && SimpleKeys(k, e) && SimpleKeys(m[k], e)
    case _ => true
  }

  lemma {:induction false} SimpleKeysReturn(a: AVal, e: Env)
    requires Admissible(e) && SimpleKeys(a, e)
    ensures KeysReturn(a, e)
    decreases a
  {
    match a {
      case AList(xs) => forall i | 0 <= i < |xs| ensures KeysReturn(xs[i], e) { SimpleKeysReturn(xs[i], e); }
      case AMultiResult(xs) => forall i | 0 <= i < |xs| ensures KeysReturn(xs[i], e) { SimpleKeysReturn(xs[i], e); }
      case AKeyValueList(ps) =>
        forall i | 0 <= i < |ps| ensures KeysReturn(ps[i].k, e) && KeysReturn(ps[i].v, e) {
          SimplePairReturns(ps[i], e);
        }
      case AHashMap(m) => SimpleEntriesReturn(a, e);
      case AOrderedMap(m) => SimpleEntriesReturn(a, e);
      case _ =>
    }
  }

  lemma {:induction false} SimplePairReturns(p: APair, e: Env)
    requires Admissible(e) && SimpleKeys(p.k, e) && SimpleKeys(p.v, e)
    ensures KeysReturn(p.k, e) && KeysReturn(p.v, e)
    decreases p
  {
    SimpleKeysReturn(p.k, e);
    SimpleKeysReturn(p.v, e);
  }

  lemma {:induction false} SimpleEntriesReturn(a: AVal, e: Env)
    requires Admissible(e) && (a.AHashMap? || a.AOrderedMap?) && SimpleKeys(a, e)
    ensures KeysReturn(a, e)
    decreases a, 0
  {
    forall k | k in Entries(a)
      ensures KeysReturn(k, e) && KeysReturn(Entries(a)[k], e)
      ensures a.AHashMap? ==> Eq(ToPhp(Trip(k, e), e), ToPhp(k, e))
    {
      SimpleKeysReturn(k, e);
      SimpleKeysReturn(Entries(a)[k], e);
      if a.AHashMap? {
        SimpleKeyReturns(k, e);
        EqReflexive(ToPhp(k, e));
      }
    }
  }

  /** Hash maps keyed by scalars, or by plain values without colliding keys, settle after one trip. */
  lemma SimpleKeysNeedOneTrip(a: AVal, e: Env, f: Env)
    requires SameOrdered(e, f) && SimpleKeys(a, e)
    ensures Trip(Trip(a, e), f) == Trip(a, e)
  {
    SimpleKeysReturn(a, e);
    ReturningKeysNeedOneTrip(a, e, f);
  }
}
