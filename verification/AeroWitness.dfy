/**
 A value that does not settle after one trip: a hash map with two ordered maps for keys, one
 keyed by 0.0 as a float32 and as a float64, the other by -0.0. The server tells the two maps
 apart, and so does PHP, which sees two pairs against one; after the trip the server keeps one
 pair in each, and PHP takes the two maps for equal.
*/
module AeroWitness {
  import opened AeroSettling
  import opened AeroTrips
  import opened AeroValues
  import opened Counting
  import opened PhpValues
  import opened Sorting

  function Zeroed(negative: bool): AVal {
    AF64(Zero(negative))
  }

  /** 0.0 in both widths, so that PHP sees two pairs where the server will keep one. */
  function Twice(bits: nat): AVal {
    AOrderedMap(map[AF32(bits) := ANil, Zeroed(false) := ANil])
  }

  function Single(negative: bool): AVal {
    AOrderedMap(map[Zeroed(negative) := ANil])
  }

  function Unsettled(bits: nat): AVal {
    AHashMap(map[Twice(bits) := ANil, Single(true) := ANil])
  }

  /** The keys 0.0 of both widths, in the server's order. */
  function Zeros(bits: nat, e: Env): (ks: seq<AVal>)
    requires Admissible(e)
    ensures |ks| == 2 && ks[0] != ks[1]
  {
    if e.less(AF32(bits), Zeroed(false)) then [AF32(bits), Zeroed(false)] else [Zeroed(false), AF32(bits)]
  }

  lemma KeysAreZeros(bits: nat, m: map<AVal, AVal>, e: Env)
    requires Admissible(e) && m.Keys == {AF32(bits), Zeroed(false)}
    ensures Keys(AOrderedMap(m), e) == Zeros(bits, e)
  {
    var ks := Keys(AOrderedMap(m), e);
    forall x ensures x in ks <==> x in Zeros(bits, e) {
      assert x in ks <==> x in m;
    }
    StrictlySortedIsUnique(e.less, ks, Zeros(bits, e));
  }

  lemma ZerosToPhp(bits: nat, e: Env, k: AVal)
    requires Admissible(e) && e.widen(bits) == Zero(false) && (k == AF32(bits) || k == Zeroed(false))
    ensures ToPhp(k, e) == Float(Zero(false)) && ToPhp(ANil, e) == Nil
  {}

  lemma PairsOfTwice(bits: nat, ks: seq<AVal>, e: Env)
    requires Admissible(e) && e.widen(bits) == Zero(false) && Enumerates(ks, Twice(bits).o)
    requires |ks| == 2
    ensures var p := Pair(Float(Zero(false)), Nil); PhpPairs(ks, Twice(bits).o, e) == [p, p]
  {
    var ps, p := PhpPairs(ks, Twice(bits).o, e), Pair(Float(Zero(false)), Nil);
    forall i | 0 <= i < 2 ensures ps[i] == p {
      assert ks[i] in Twice(bits).o;
      ZerosToPhp(bits, e, ks[i]);
    }
  }

  lemma PhpTwice(bits: nat, e: Env)
    requires Admissible(e) && e.widen(bits) == Zero(false)
    ensures ToPhp(Twice(bits), e) == OrderedMap([Pair(Float(Zero(false)), Nil), Pair(Float(Zero(false)), Nil)])
  {
    PhpOfOrderedMap(Twice(bits).o, e);
    KeysAreZeros(bits, Twice(bits).o, e);
    PairsOfTwice(bits, Keys(Twice(bits), e), e);
  }

  lemma AeroOfZeros(e: Env)
    requires Admissible(e)
    ensures var p, q := Pair(Float(Zero(false)), Nil), APair(Zeroed(false), ANil); AeroPairs([p, p], e) == [q, q]
  {
    LeafToAero(Float(Zero(false)), e);
    LeafToAero(Nil, e);
  }

  lemma TripTwice(bits: nat, e: Env)
    requires Admissible(e) && e.widen(bits) == Zero(false)
    ensures Trip(Twice(bits), e) == Single(false)
  {
    PhpTwice(bits, e);
    var p := Pair(Float(Zero(false)), Nil);
    AeroOfPairs([p, p], e);
    AeroOfZeros(e);
    BuildTwice(APair(Zeroed(false), ANil));
  }

  lemma BuildTwice(q: APair)
    ensures Build([q, q]) == map[q.k := q.v]
  {
    assert [q, q][..1] == [q] && [q][..0] == [];
    assert Build([q]) == map[q.k := q.v];
  }

  lemma PhpSingle(negative: bool, e: Env)
    requires Admissible(e)
    ensures ToPhp(Single(negative), e) == OrderedMap([Pair(Float(Zero(negative)), Nil)])
  {
    var k, m := Zeroed(negative), map[Zeroed(negative) := ANil];
    PhpOfOrderedMap(m, e);
    var ks := Keys(Single(negative), e);
    forall x ensures x in ks <==> x in [k] {
      assert x in ks <==> x in m;
    }
    StrictlySortedIsUnique(e.less, ks, [k]);
  }

  lemma TripSingle(negative: bool, e: Env)
    requires Admissible(e)
    ensures Trip(Single(negative), e) == Single(negative)
  {
    var m := Single(negative).o;
    forall k | k in m ensures Plain(k) && Plain(m[k]) && CollisionFree(k, e) && CollisionFree(m[k], e) {
      assert k == Zeroed(negative) && m[k] == ANil;
    }
    ComesBackExactly(Single(negative), e);
  }

  lemma ZeroPairsAreEqual()
    ensures Eq(OrderedMap([Pair(Float(Zero(false)), Nil)]), OrderedMap([Pair(Float(Zero(true)), Nil)]))
  {
    assert SamePair(Pair(Float(Zero(false)), Nil), Pair(Float(Zero(true)), Nil));
  }

  lemma SinglesAreEqualToPhp(e: Env)
    requires Admissible(e)
    ensures Eq(ToPhp(Single(false), e), ToPhp(Single(true), e))
  {
    PhpSingle(false, e);
    PhpSingle(true, e);
    ZeroPairsAreEqual();
  }

  lemma SinglesDiffer()
    ensures Single(false) != Single(true)
  {
    assert Zeroed(false) in Single(false).o && Zeroed(false) !in Single(true).o;
  }

  lemma TwiceAndSingleDiffer(bits: nat, e: Env)
    requires Admissible(e) && e.widen(bits) == Zero(false)
    ensures !Eq(ToPhp(Twice(bits), e), ToPhp(Single(true), e)) && !Eq(ToPhp(Single(true), e), ToPhp(Twice(bits), e))
  {
    PhpTwice(bits, e);
    PhpSingle(true, e);
  }

  lemma KeysAreApartAtFirst(bits: nat, e: Env)
    requires Admissible(e) && e.widen(bits) == Zero(false)
    ensures KeysApart(Unsettled(bits).m, e)
  {
    TwiceAndSingleDiffer(bits, e);
    forall k, l | k in Unsettled(bits).m && l in Unsettled(bits).m && k != l ensures !Eq(ToPhp(k, e), ToPhp(l, e)) {
      assert (k == Twice(bits) && l == Single(true)) || (k == Single(true) && l == Twice(bits));
    }
  }

  lemma BothSinglesReturn(bits: nat, e: Env)
    requires Admissible(e) && e.widen(bits) == Zero(false)
    ensures var t := Trip(Unsettled(bits), e); t.AHashMap? && Single(false) in t.m && Single(true) in t.m
  {
    KeysAreApartAtFirst(bits, e);
    TripTwice(bits, e);
    TripSingle(true, e);
    KeyReturns(Unsettled(bits), Twice(bits), e);
    KeyReturns(Unsettled(bits), Single(true), e);
  }

  lemma ReturnCollides(bits: nat, e: Env)
    requires Admissible(e) && e.widen(bits) == Zero(false)
    ensures !CollisionFree(Trip(Unsettled(bits), e), e)
  {
    BothSinglesReturn(bits, e);
    SinglesAreEqualToPhp(e);
    SinglesDiffer();
    EqualKeysCollide(Trip(Unsettled(bits), e).m, Single(false), Single(true), e);
  }

  lemma EqualKeysCollide(m: map<AVal, AVal>, k: AVal, l: AVal, e: Env)
    requires Admissible(e) && k in m && l in m && k != l && Eq(ToPhp(k, e), ToPhp(l, e))
    ensures !CollisionFree(AHashMap(m), e)
  {
    NotApart(m, k, l, e);
  }

  lemma NotApart(m: map<AVal, AVal>, k: AVal, l: AVal, e: Env)
    requires Admissible(e) && k in m && l in m && k != l && Eq(ToPhp(k, e), ToPhp(l, e))
    ensures !KeysApart(m, e)
  {}

  /** The value whose second trip differs from its first, for every key order and all iteration orders. */
  lemma OneTripMayNotSettle(bits: nat, e: Env, f: Env)
    requires SameOrdered(e, f) && e.widen(bits) == Zero(false)
    ensures Trip(Trip(Unsettled(bits), e), f) != Trip(Unsettled(bits), e)
  {
    ReturnCollides(bits, e);
    SecondTripIsIdentityExactly(Unsettled(bits), e, f);
  }

  lemma UnsettledIsUnsettled(bits: nat, e: Env)
    requires Admissible(e) && e.widen(bits) == Zero(false)
    ensures !KeysSettle(Unsettled(bits), e)
  {
    OneTripMayNotSettle(bits, e, e);
    if KeysSettle(Unsettled(bits), e) {
      SettledNeedsOneTrip(Unsettled(bits), e, e);
    }
  }

  /** Two entries that come back under one key: the later one, nil, stays and the unsettled one goes. */
  function Losing(bits: nat, e: Env): map<AVal, AVal>
    requires Admissible(e)
  {
    map[Zeros(bits, e)[0] := Unsettled(bits), Zeros(bits, e)[1] := ANil]
  }

  lemma ZerosReturn(bits: nat, e: Env)
    requires Admissible(e) && e.widen(bits) == Zero(false)
    ensures forall i :: 0 <= i < 2 ==> Trip(Zeros(bits, e)[i], e) == Zeroed(false)
  {
    LeafTrip(AF32(bits), e);
    LeafTrip(Zeroed(false), e);
  }

  lemma LosingPairs(bits: nat, e: Env)
    requires Admissible(e) && e.widen(bits) == Zero(false)
    ensures var qs := AeroPairs(PhpEntries(AOrderedMap(Losing(bits, e)), e), e);
      |qs| == 2 && qs[0].k == Zeroed(false) && qs[1] == APair(Zeroed(false), ANil)
  {
    var m, k := Losing(bits, e), Zeros(bits, e)[1];
    assert m.Keys == {AF32(bits), Zeroed(false)} && m[k] == ANil;
    LeafTrip(ANil, e);
    ZeroPairs(bits, m, k, e);
  }

  lemma ZeroPairs(bits: nat, m: map<AVal, AVal>, last: AVal, e: Env)
    requires Admissible(e) && e.widen(bits) == Zero(false)
    requires m.Keys == {AF32(bits), Zeroed(false)} && last == Zeros(bits, e)[1] && last in m
    ensures var qs := AeroPairs(PhpEntries(AOrderedMap(m), e), e);
      |qs| == 2 && qs[0].k == Zeroed(false) && qs[1] == APair(Zeroed(false), Trip(m[last], e))
  {
    KeysAreZeros(bits, m, e);
    ZerosReturn(bits, e);
    WalkedInOrder(m, e);
    TwoTrips(Zeros(bits, e), m, e);
  }

  lemma TwoTrips(ks: seq<AVal>, m: map<AVal, AVal>, e: Env)
    requires Admissible(e) && Enumerates(ks, m) && |ks| == 2
    ensures var qs := AeroPairs(PhpPairs(ks, m, e), e);
      |qs| == 2 && qs[0].k == Trip(ks[0], e) && qs[1] == APair(Trip(ks[1], e), Trip(m[ks[1]], e))
  {
    PairTrips(ks, m, e, 0);
    PairTrips(ks, m, e, 1);
  }

  lemma WalkedInOrder(m: map<AVal, AVal>, e: Env)
    requires Admissible(e)
    ensures PhpEntries(AOrderedMap(m), e) == PhpPairs(Keys(AOrderedMap(m), e), m, e)
  {}

  lemma LosingReturns(bits: nat, e: Env)
    requires Admissible(e) && e.widen(bits) == Zero(false)
    ensures Trip(AOrderedMap(Losing(bits, e)), e) == Single(false)
  {
    var a := AOrderedMap(Losing(bits, e));
    TripOfMap(a, e);
    LosingPairs(bits, e);
    LastWins(AeroPairs(PhpEntries(a, e), e), Zeroed(false));
  }

  lemma LosingMerges(bits: nat, e: Env)
    requires Admissible(e) && e.widen(bits) == Zero(false)
    ensures !TripsDiffer(Losing(bits, e), e)
  {
    ZerosReturn(bits, e);
    var k, l, m := Zeros(bits, e)[0], Zeros(bits, e)[1], Losing(bits, e);
    assert k in m && l in m && k != l;
  }

  lemma LosingLoses(bits: nat, e: Env)
    requires Admissible(e) && e.widen(bits) == Zero(false)
    ensures !LosesNothing(AOrderedMap(Losing(bits, e)), e) && !KeysSettle(AOrderedMap(Losing(bits, e)), e)
  {
    LosingMerges(bits, e);
    UnsettledIsUnsettled(bits, e);
    assert Losing(bits, e)[Zeros(bits, e)[0]] == Unsettled(bits);
  }

  /** Where an entry is lost, so may be what made the value unsettled: the condition is not necessary then. */
  lemma LosingMaySettle(bits: nat, e: Env, f: Env)
    requires SameOrdered(e, f) && e.widen(bits) == Zero(false)
    ensures var a := AOrderedMap(Losing(bits, e));
      !LosesNothing(a, e) && !KeysSettle(a, e) && Trip(Trip(a, e), f) == Trip(a, e)
  {
    LosingLoses(bits, e);
    LosingReturns(bits, e);
    TripSingle(false, f);
  }

  lemma LastWins(qs: seq<APair>, k: AVal)
    requires |qs| == 2 && qs[0].k == k && qs[1].k == k
    ensures Build(qs) == map[k := qs[1].v]
  {
    assert qs[..1] == [qs[0]] && [qs[0]][..0] == [];
    assert Build([qs[0]]) == map[k := qs[0].v];
  }

  /** When PHP tells all keys apart, the trip of every key is a key of what comes back. */
  lemma KeyReturns(a: AVal, k: AVal, e: Env)
    requires Admissible(e) && a.AHashMap? && k in a.m && KeysApart(a.m, e)
    ensures Trip(a, e).AHashMap? && Trip(k, e) in Trip(a, e).m
  {
    TripOfMap(a, e);
    WholeEntries(a, e);
    var ks := Keys(a, e);
    var w := Walk(a, PhpPairs(ks, a.m, e), e);
    assert k in ks;
    var j: nat :| j < |ks| && ks[j] == k;
    var i := Pigeonhole(w, j);
    BuildHasEveryKey(AeroPairs(PhpEntries(a, e), e), i);
  }
}
