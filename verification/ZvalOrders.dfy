/**
 Round trips through PHP whatever the iteration order of the hash maps, at every depth: a hash
 map whose keys are exactly 0, ..., N-1 looks like a list under some order and like a map under
 the others.
*/
module ZvalOrders {
  import opened Counting
  import opened PhpValues
  import opened ZvalConversion

  predicate IsBelow(k: PHPValue, n: nat) {
    k.Int? && 0 <= k.i < n
  }

  ghost predicate HasKey(xs: seq<Pair>, n: nat) {
    exists i :: 0 <= i < |xs| && xs[i].k == Int(n)
  }

  /** The keys are exactly 0, ..., N-1, in some order. */
  ghost predicate KeyedBelow(xs: seq<Pair>) {
    && (forall i :: 0 <= i < |xs| ==> IsBelow(xs[i].k, |xs|))
    && forall n: nat :: n < |xs| ==> HasKey(xs, n)
  }

  lemma ListLikeOrder(xs: seq<Pair>, m: seq<nat>)
    requires Permutes(m, |xs|) && LooksLikeAList(HashMap(Rearranged(xs, m)))
    ensures KeyedBelow(xs)
  {
    var ys := Rearranged(xs, m);
    forall i: nat | i < |xs| ensures xs[m[i]].k == Int(i) {
      assert MapKeys(HashMap(ys))[i] == Int(i) && ys[i] == xs[m[i]];
    }
    forall j | 0 <= j < |xs| ensures IsBelow(xs[j].k, |xs|) {
      var i := Pigeonhole(m, j);
      assert xs[m[i]].k == Int(i);
    }
    forall n: nat | n < |xs| ensures HasKey(xs, n) {
      assert xs[m[n]].k == Int(n);
    }
  }

  lemma OrderThatLooksLikeAList(xs: seq<Pair>) returns (m: seq<nat>)
    requires KeyedBelow(xs)
    ensures Permutes(m, |xs|) && LooksLikeAList(HashMap(Rearranged(xs, m)))
  {
    m := [];
    for n := 0 to |xs|
      invariant |m| == n && forall i :: 0 <= i < n ==> m[i] < |xs| && xs[m[i]].k == Int(i)
    {
      assert HasKey(xs, n);
      var j :| 0 <= j < |xs| && xs[j].k == Int(n);
      m := m + [j];
    }
    assert Permutes(m, |xs|);
  }

  // ---------------------------------------------------------------------------------------
  //  Every depth
  // ---------------------------------------------------------------------------------------

  /** `w` is `v` with the hash maps and JSON objects in it enumerated in other orders. */
  ghost predicate Reordering(v: PHPValue, w: PHPValue)
    decreases v
  {
    match (v, w)
    case (List(xs), List(ys)) => |xs| == |ys| && forall i :: 0 <= i < |xs| ==> Reordering(xs[i], ys[i])
    case (OrderedMap(xs), OrderedMap(ys)) =>
      |xs| == |ys| && forall i :: 0 <= i < |xs| ==> PairReordering(xs[i], ys[i])
    case (HashMap(xs), HashMap(ys)) => exists m :: MatchedPairs(xs, ys, m)
    case (Json(xs), Json(ys)) => exists m :: MatchedFields(xs, ys, m)
    case _ => v == w
  }

  ghost predicate PairReordering(x: Pair, y: Pair)
    decreases x, 0
  {
    Reordering(x.k, y.k) && Reordering(x.v, y.v)
  }

  ghost predicate FieldReordering(x: Field, y: Field)
    decreases x, 0
  {
    x.name == y.name && Reordering(x.v, y.v)
  }

  /** Entry `i` of `ys` is entry `m[i]` of `xs`, reordered inside. */
  ghost predicate MatchedPairs(xs: seq<Pair>, ys: seq<Pair>, m: seq<nat>)
    decreases xs, 0
  {
    Permutes(m, |xs|) && |ys| == |xs| && forall i :: 0 <= i < |xs| ==> PairReordering(xs[m[i]], ys[i])
  }

  ghost predicate MatchedFields(xs: seq<Field>, ys: seq<Field>, m: seq<nat>)
    decreases xs, 0
  {
    Permutes(m, |xs|) && |ys| == |xs| && forall i :: 0 <= i < |xs| ==> FieldReordering(xs[m[i]], ys[i])
  }

  /** The values that survive the trip under every order. */
  ghost predicate OrderFree(v: PHPValue)
    decreases v
  {
    match v
    case UInt(_) => false
    case List(xs) => forall i :: 0 <= i < |xs| ==> OrderFree(xs[i])
    case HashMap(xs) => PlainKeys(v) && !KeyedBelow(xs) && OrderFreeVals(v)
    case OrderedMap(_) => PlainKeys(v) && !LooksLikeAList(v) && OrderFreeVals(v)
    case Json(xs) => PlainKeys(v) && xs != [] && OrderFreeVals(v)
    case _ => true
  }

  ghost predicate OrderFreeVals(v: PHPValue)
    requires IsMap(v)
    decreases v, 0
  {
    var vs := MapVals(v);
    forall i :: 0 <= i < |vs| ==> OrderFree(vs[i])
  }

  // ---------------------------------------------------------------------------------------
  //  Every order survives
  // ---------------------------------------------------------------------------------------

  lemma PlainKeyStays(k: PHPValue, k': PHPValue)
    requires PlainKey(k) && Reordering(k, k')
    ensures k' == k
  {}

  /** The keys of `w` are those of `v`, in the order told by `m`. */
  ghost predicate KeysMatch(v: PHPValue, w: PHPValue, m: seq<nat>)
    requires IsMap(v) && IsMap(w)
  {
    var ks, ks' := MapKeys(v), MapKeys(w);
    Permutes(m, |ks|) && |ks'| == |ks| && forall i :: 0 <= i < |ks| ==> ks'[i] == ks[m[i]]
  }

  lemma MatchedKeysArePlain(v: PHPValue, w: PHPValue, m: seq<nat>)
    requires IsMap(v) && IsMap(w) && PlainKeys(v) && KeysMatch(v, w, m)
    ensures PlainKeys(w)
  {
    var ks, ks' := MapKeys(v), MapKeys(w);
    forall i, j | 0 <= i < j < |ks'| ensures ks'[i] != ks'[j] {
      assert m[i] != m[j];
    }
  }

  lemma MatchedHashKeys(xs: seq<Pair>, ys: seq<Pair>, m: seq<nat>)
    requires MatchedPairs(xs, ys, m) && PlainKeys(HashMap(xs))
    ensures KeysMatch(HashMap(xs), HashMap(ys), m)
  {
    forall i | 0 <= i < |xs| ensures ys[i].k == xs[m[i]].k {
      assert PlainKey(MapKeys(HashMap(xs))[m[i]]) && PairReordering(xs[m[i]], ys[i]);
      PlainKeyStays(xs[m[i]].k, ys[i].k);
    }
  }

  lemma MatchedLooksLikeAList(xs: seq<Pair>, ys: seq<Pair>, m: seq<nat>)
    requires KeysMatch(HashMap(xs), HashMap(ys), m) && LooksLikeAList(HashMap(ys))
    ensures KeyedBelow(xs)
  {
    assert forall i :: 0 <= i < |xs| ==> Rearranged(xs, m)[i].k == MapKeys(HashMap(ys))[i];
    ListLikeOrder(xs, m);
  }

  lemma {:induction false} OrderFreeIsFaithful(v: PHPValue, w: PHPValue)
    requires OrderFree(v) && Reordering(v, w)
    ensures Faithful(w)
    decreases v
  {
    match v {
      case List(xs) =>
        forall i | 0 <= i < |xs| ensures Faithful(w.items[i]) {
          OrderFreeIsFaithful(xs[i], w.items[i]);
        }
      case HashMap(xs) =>
        var m :| MatchedPairs(xs, w.entries, m);
        HashMapIsFaithful(xs, w.entries, m);
      case OrderedMap(xs) => OrderedMapIsFaithful(xs, w.pairs);
      case Json(xs) =>
        var m :| MatchedFields(xs, w.fields, m);
        JsonIsFaithful(xs, w.fields, m);
      case _ =>
    }
  }

  lemma PairIsFaithful(x: Pair, y: Pair)
    requires OrderFree(x.v) && PairReordering(x, y)
    ensures Faithful(y.v)
    decreases x
  {
    OrderFreeIsFaithful(x.v, y.v);
  }

  lemma FieldIsFaithful(x: Field, y: Field)
    requires OrderFree(x.v) && FieldReordering(x, y)
    ensures Faithful(y.v)
    decreases x
  {
    OrderFreeIsFaithful(x.v, y.v);
  }

  lemma {:induction false} HashMapIsFaithful(xs: seq<Pair>, ys: seq<Pair>, m: seq<nat>)
    requires OrderFree(HashMap(xs)) && MatchedPairs(xs, ys, m)
    ensures Faithful(HashMap(ys))
    decreases xs
  {
    MatchedHashKeys(xs, ys, m);
    MatchedKeysArePlain(HashMap(xs), HashMap(ys), m);
    if LooksLikeAList(HashMap(ys)) {
      MatchedLooksLikeAList(xs, ys, m);
    }
    forall i | 0 <= i < |ys| ensures Faithful(MapVals(HashMap(ys))[i]) {
      assert OrderFree(MapVals(HashMap(xs))[m[i]]);
      PairIsFaithful(xs[m[i]], ys[i]);
    }
  }

  lemma {:induction false} OrderedMapIsFaithful(xs: seq<Pair>, ys: seq<Pair>)
    requires OrderFree(OrderedMap(xs)) && Reordering(OrderedMap(xs), OrderedMap(ys))
    ensures Faithful(OrderedMap(ys))
    decreases xs
  {
    forall i | 0 <= i < |xs| ensures ys[i].k == xs[i].k && Faithful(ys[i].v) {
      assert PlainKey(MapKeys(OrderedMap(xs))[i]) && OrderFree(MapVals(OrderedMap(xs))[i]);
      assert PairReordering(xs[i], ys[i]);
      PlainKeyStays(xs[i].k, ys[i].k);
      PairIsFaithful(xs[i], ys[i]);
    }
    assert MapKeys(OrderedMap(ys)) == MapKeys(OrderedMap(xs));
  }

  lemma {:induction false} JsonIsFaithful(xs: seq<Field>, ys: seq<Field>, m: seq<nat>)
    requires OrderFree(Json(xs)) && MatchedFields(xs, ys, m)
    ensures Faithful(Json(ys))
    decreases xs
  {
    MatchedJsonKeys(xs, ys, m);
    MatchedKeysArePlain(Json(xs), Json(ys), m);
    assert MapKeys(Json(ys))[0].Str?;
    forall i | 0 <= i < |ys| ensures Faithful(MapVals(Json(ys))[i]) {
      assert OrderFree(MapVals(Json(xs))[m[i]]);
      FieldIsFaithful(xs[m[i]], ys[i]);
    }
  }

  lemma MatchedJsonKeys(xs: seq<Field>, ys: seq<Field>, m: seq<nat>)
    requires MatchedFields(xs, ys, m)
    ensures KeysMatch(Json(xs), Json(ys), m)
  {
    forall i | 0 <= i < |xs| ensures ys[i].name == xs[m[i]].name {
      assert FieldReordering(xs[m[i]], ys[i]);
    }
  }

  // ---------------------------------------------------------------------------------------
  //  Otherwise some order fails
  // ---------------------------------------------------------------------------------------

  function Unmoved(n: nat): (m: seq<nat>)
    ensures Permutes(m, n) && forall i :: 0 <= i < n ==> m[i] == i
  {
    seq(n, i requires 0 <= i < n => i as nat)
  }

  lemma {:induction false} ReorderingReflexive(v: PHPValue)
    ensures Reordering(v, v)
    decreases v
  {
    match v {
      case List(xs) => forall i | 0 <= i < |xs| ensures Reordering(xs[i], xs[i]) { ReorderingReflexive(xs[i]); }
      case HashMap(xs) =>
        PairsReflexive(xs);
        assert MatchedPairs(xs, xs, Unmoved(|xs|));
      case OrderedMap(xs) => PairsReflexive(xs);
      case Json(xs) =>
        FieldsReflexive(xs);
        assert MatchedFields(xs, xs, Unmoved(|xs|));
      case _ =>
    }
  }

  lemma {:induction false} PairsReflexive(xs: seq<Pair>)
    ensures forall i :: 0 <= i < |xs| ==> PairReordering(xs[i], xs[i])
    decreases xs
  {
    forall i | 0 <= i < |xs| ensures PairReordering(xs[i], xs[i]) {
      PairReflexiveOrder(xs[i]);
    }
  }

  lemma PairReflexiveOrder(x: Pair)
    ensures PairReordering(x, x)
    decreases x
  {
    ReorderingReflexive(x.k);
    ReorderingReflexive(x.v);
  }

  lemma {:induction false} FieldsReflexive(xs: seq<Field>)
    ensures forall i :: 0 <= i < |xs| ==> FieldReordering(xs[i], xs[i])
    decreases xs
  {
    forall i | 0 <= i < |xs| ensures FieldReordering(xs[i], xs[i]) {
      FieldReflexiveOrder(xs[i]);
    }
  }

  lemma FieldReflexiveOrder(x: Field)
    ensures FieldReordering(x, x)
    decreases x
  {
    ReorderingReflexive(x.v);
  }

  /** The order under which `v` is lost. */
  lemma {:induction false} LosingOrder(v: PHPValue) returns (w: PHPValue)
    requires !OrderFree(v)
    ensures Reordering(v, w) && !Faithful(w)
    decreases v, 1
  {
    match v {
      case List(xs) => w := LosingList(xs);
      case HashMap(xs) => w := LosingHashMap(xs);
      case OrderedMap(xs) => w := LosingOrderedMap(xs);
      case Json(xs) => w := LosingJson(xs);
      case _ => w := v;
    }
  }

  lemma {:induction false} LosingList(xs: seq<PHPValue>) returns (w: PHPValue)
    requires !OrderFree(List(xs))
    ensures Reordering(List(xs), w) && !Faithful(w)
    decreases xs, 0
  {
    var i :| 0 <= i < |xs| && !OrderFree(xs[i]);
    var y := LosingOrder(xs[i]);
    var ys := xs[i := y];
    w := List(ys);
    forall j | 0 <= j < |xs| ensures Reordering(xs[j], ys[j]) {
      ReorderingReflexive(xs[j]);
    }
    assert !Faithful(ys[i]);
  }

  lemma {:induction false} LosingPair(x: Pair) returns (y: Pair)
    requires !OrderFree(x.v)
    ensures PairReordering(x, y) && !Faithful(y.v)
    decreases x, 0
  {
    var v := LosingOrder(x.v);
    ReorderingReflexive(x.k);
    y := Pair(x.k, v);
  }

  /** One entry loses, the others stay as they are. */
  lemma {:induction false} LosingEntry(xs: seq<Pair>, i: nat) returns (ys: seq<Pair>)
    requires i < |xs| && !OrderFree(xs[i].v)
    ensures |ys| == |xs| && !Faithful(ys[i].v) && forall j :: 0 <= j < |xs| ==> PairReordering(xs[j], ys[j])
    decreases xs, 0
  {
    var y := LosingPair(xs[i]);
    ys := xs[i := y];
    PairsReflexive(xs);
  }

  lemma {:induction false} LosingHashMap(xs: seq<Pair>) returns (w: PHPValue)
    requires !OrderFree(HashMap(xs))
    ensures Reordering(HashMap(xs), w) && !Faithful(w)
    decreases xs, 1
  {
    if !PlainKeys(HashMap(xs)) {
      w := HashMap(xs);
      ReorderingReflexive(w);
    } else if KeyedBelow(xs) {
      var m := OrderThatLooksLikeAList(xs);
      w := HashMap(Rearranged(xs, m));
      PairsReflexive(xs);
      assert MatchedPairs(xs, Rearranged(xs, m), m);
    } else {
      var i: nat :| i < |xs| && !OrderFree(MapVals(HashMap(xs))[i]);
      var ys := LosingEntry(xs, i);
      w := HashMap(ys);
      assert MatchedPairs(xs, ys, Unmoved(|xs|));
      assert !Faithful(MapVals(w)[i]);
    }
  }

  lemma {:induction false} LosingOrderedMap(xs: seq<Pair>) returns (w: PHPValue)
    requires !OrderFree(OrderedMap(xs))
    ensures Reordering(OrderedMap(xs), w) && !Faithful(w)
    decreases xs, 1
  {
    if !PlainKeys(OrderedMap(xs)) || LooksLikeAList(OrderedMap(xs)) {
      w := OrderedMap(xs);
      ReorderingReflexive(w);
    } else {
      var i: nat :| i < |xs| && !OrderFree(MapVals(OrderedMap(xs))[i]);
      var ys := LosingEntry(xs, i);
      w := OrderedMap(ys);
      assert !Faithful(MapVals(w)[i]);
    }
  }

  lemma {:induction false} LosingField(x: Field) returns (y: Field)
    requires !OrderFree(x.v)
    ensures FieldReordering(x, y) && !Faithful(y.v)
    decreases x, 0
  {
    var v := LosingOrder(x.v);
    y := Field(x.name, v);
  }

  lemma {:induction false} LosingJson(xs: seq<Field>) returns (w: PHPValue)
    requires !OrderFree(Json(xs))
    ensures Reordering(Json(xs), w) && !Faithful(w)
    decreases xs, 1
  {
    if !PlainKeys(Json(xs)) || xs == [] {
      w := Json(xs);
      ReorderingReflexive(w);
    } else {
      var i: nat :| i < |xs| && !OrderFree(MapVals(Json(xs))[i]);
      var y := LosingField(xs[i]);
      var ys := xs[i := y];
      w := Json(ys);
      FieldsReflexive(xs);
      assert MatchedFields(xs, ys, Unmoved(|xs|));
      assert !Faithful(MapVals(w)[i]);
    }
  }

  /**
   A value comes back from PHP equal whatever orders the hash maps in it are enumerated in, at
   every depth, iff no part of it is an unsigned integer, all maps have plain keys, no hash map
   has exactly the keys 0, ..., N-1, no ordered map is enumerated as 0, 1, 2, ..., and no JSON
   object is empty. Otherwise some order fails.
  */
  lemma EveryOrderRoundTrips(v: PHPValue, show: PHPValue -> string)
    ensures (forall w :: Reordering(v, w) ==> RoundTrips(w, show)) <==> OrderFree(v)
  {
    if OrderFree(v) {
      forall w | Reordering(v, w) ensures RoundTrips(w, show) {
        OrderFreeIsFaithful(v, w);
        RoundTripsExactly(w, show);
      }
    } else {
      var w := LosingOrder(v);
      RoundTripsExactly(w, show);
    }
  }
}
