/**
 The conversions between the server's values and `PHPValue`.

 A server map is a finite map, so that equality of server values is `==`. A hash map is enumerated
 in an arbitrary order, on the server's side and on PHP's, an ordered map in the order of its
 keys, which is any total order. Floats keep their bits on the server's side, while `PHPValue`
 equates both zeros and all NaNs.
*/
module AeroValues {
  import opened Counting
  import opened NumericKeys
  import opened PhpValues
  import opened Sorting

  datatype APair = APair(k: AVal, v: AVal)

  datatype AVal =
    | ANil
    | ABool(b: bool)
    | AInt(i: int)
    | AF32(bits: nat)
    | AF64(f: Double)
    | AString(s: string)
    | ABlob(bytes: seq<nat>)
    | AList(items: seq<AVal>)
    | AMultiResult(results: seq<AVal>)
    | AHashMap(m: map<AVal, AVal>)
    | AOrderedMap(o: map<AVal, AVal>)
    | AKeyValueList(pairs: seq<APair>)
    | AGeoJSON(geo: string)
    | AHLL(hll: seq<nat>)
    | AInfinity
    | AWildcard

  /**
   What the conversions leave open: widening of floats, the order of keys, and the iteration
   orders of hash maps, those of PHP given by the places of the entries.
  */
  datatype Env = Env(
    widen: nat -> Double, less: (AVal, AVal) -> bool,
    enumerate: map<AVal, AVal> -> seq<AVal>, walk: seq<Pair> -> seq<nat>, walkFields: seq<Field> -> seq<nat>)

  ghost predicate Enumerates(ks: seq<AVal>, m: map<AVal, AVal>) {
    && Distinct(ks)
    && (forall i :: 0 <= i < |ks| ==> ks[i] in m)
    && forall k :: k in m ==> k in ks
  }

  ghost predicate Admissible(e: Env) {
    && StrictTotal(e.less)
    && (forall m :: Enumerates(e.enumerate(m), m))
    && (forall xs :: Permutes(e.walk(xs), |xs|))
    && (forall xs :: Permutes(e.walkFields(xs), |xs|))
  }

  /** The keys of a `BTreeMap` in iteration order. */
  function InOrder(m: map<AVal, AVal>, e: Env): (ks: seq<AVal>)
    requires Admissible(e)
    ensures Enumerates(ks, m) && StrictlySorted(e.less, ks)
  {
    assert Enumerates(e.enumerate(m), m);
    DistinctSortsStrictly(e.less, e.enumerate(m));
    Reenumerates(e, Sort(e.less, e.enumerate(m)), m);
    Sort(e.less, e.enumerate(m))
  }

  lemma Reenumerates(e: Env, ks: seq<AVal>, m: map<AVal, AVal>)
    requires Admissible(e) && StrictlySorted(e.less, ks) && SameElements(ks, e.enumerate(m))
    ensures Enumerates(ks, m)
  {
    var all := e.enumerate(m);
    assert Enumerates(all, m);
    StrictlySortedIsDistinct(e.less, ks);
    forall i | 0 <= i < |ks| ensures ks[i] in m {
      assert ks[i] in ks;
      var j :| 0 <= j < |all| && all[j] == ks[i];
    }
  }

  lemma StrictlySortedIsDistinct<T(!new)>(less: (T, T) -> bool, xs: seq<T>)
    requires StrictTotal(less) && StrictlySorted(less, xs)
    ensures Distinct(xs)
  {}

  /** `collect` into a PHP-side hash map. */
  function Collect(ps: seq<Pair>): seq<Pair> {
    if ps == [] then []
    else
      var n := |ps| - 1;
      PutPair(Collect(ps[..n]), ps[n].k, ps[n].v)
  }

  /** `collect` into a server-side map. */
  function Build(ps: seq<APair>): map<AVal, AVal> {
    if ps == [] then map[]
    else
      var n := |ps| - 1;
      Build(ps[..n])[ps[n].k := ps[n].v]
  }

  predicate Scalar(a: AVal) {
    match a
    case AList(_) => false
    case AMultiResult(_) => false
    case AHashMap(_) => false
    case AOrderedMap(_) => false
    case AKeyValueList(_) => false
    case _ => true
  }

  predicate Flat(p: PHPValue) {
    !(p.List? || p.HashMap? || p.OrderedMap? || p.Json?)
  }

  /** The values without parts. */
  function ScalarToPhp(a: AVal, e: Env): (p: PHPValue)
    ensures Flat(p)
  {
    match a
    case ABool(b) => Bool(b)
    case AInt(i) => Int(i)
    case AF32(bits) => Float(e.widen(bits))
    case AF64(f) => Float(f)
    case AString(s) => Str(s)
    case ABlob(bs) => Blob(bs)
    case AGeoJSON(s) => GeoJSON(s)
    case AHLL(bs) => HLL(bs)
    case AInfinity => Infinity
    case AWildcard => Wildcard
    case _ => Nil
  }

  /** `From<aero::Value> for PHPValue`. */
  function ToPhp(a: AVal, e: Env): PHPValue
    requires Admissible(e)
    decreases a
  {
    match a
    case AList(xs) => List(seq(|xs|, i requires 0 <= i < |xs| => ToPhp(xs[i], e)))
    case AMultiResult(xs) => List(seq(|xs|, i requires 0 <= i < |xs| => ToPhp(xs[i], e)))
    case AHashMap(m) =>
      var ks := e.enumerate(m);
      assert Enumerates(ks, m);
      HashMap(Collect(seq(|ks|, i requires 0 <= i < |ks| => Pair(ToPhp(ks[i], e), ToPhp(m[ks[i]], e)))))
    case AOrderedMap(m) =>
      var ks := InOrder(m, e);
      OrderedMap(seq(|ks|, i requires 0 <= i < |ks| => Pair(ToPhp(ks[i], e), ToPhp(m[ks[i]], e))))
    case AKeyValueList(ps) =>
      OrderedMap(seq(|ps|, i requires 0 <= i < |ps| => Pair(ToPhp(ps[i].k, e), ToPhp(ps[i].v, e))))
    case _ => ScalarToPhp(a, e)
  }

  /** The values without parts. An unsigned integer out of range throws and leaves nil. */
  function ScalarToAero(p: PHPValue): (a: AVal)
    ensures Scalar(a) && !a.AF32?
  {
    match p
    case Bool(b) => ABool(b)
    case Int(i) => AInt(i)
    case UInt(u) => if u <= I64_MAX then AInt(u) else ANil
    case Float(f) => AF64(f)
    case Str(s) => AString(s)
    case Blob(bs) => ABlob(bs)
    case GeoJSON(s) => AGeoJSON(s)
    case HLL(bs) => AHLL(bs)
    case Infinity => AInfinity
    case Wildcard => AWildcard
    case _ => ANil
  }

  /** `From<PHPValue> for aero::Value`. */
  function ToAero(p: PHPValue, e: Env): AVal
    requires Admissible(e)
    decreases p
  {
    match p
    case List(xs) => AList(seq(|xs|, i requires 0 <= i < |xs| => ToAero(xs[i], e)))
    case HashMap(xs) =>
      var m := e.walk(xs);
      assert Permutes(m, |xs|);
      AHashMap(Build(seq(|m|, i requires 0 <= i < |m| => APair(ToAero(xs[m[i]].k, e), ToAero(xs[m[i]].v, e)))))
    case OrderedMap(xs) =>
      AOrderedMap(Build(seq(|xs|, i requires 0 <= i < |xs| => APair(ToAero(xs[i].k, e), ToAero(xs[i].v, e)))))
    case Json(xs) =>
      var m := e.walkFields(xs);
      assert Permutes(m, |xs|);
      AHashMap(Build(seq(|m|, i requires 0 <= i < |m| => APair(AString(xs[m[i]].name), ToAero(xs[m[i]].v, e)))))
    case _ => ScalarToAero(p)
  }

  function Trip(a: AVal, e: Env): AVal
    requires Admissible(e)
  {
    ToAero(ToPhp(a, e), e)
  }

  /** Free of the three forms that do not survive: F32, `MultiResult` and `KeyValueList`. */
  ghost predicate Plain(a: AVal) {
    match a
    case AF32(_) => false
    case AMultiResult(_) => false
    case AKeyValueList(_) => false
    case AList(xs) => forall i :: 0 <= i < |xs| ==> Plain(xs[i])
    case AHashMap(m) => forall k :: k in m ==> Plain(k) && Plain(m[k])
    case AOrderedMap(m) => forall k :: k in m ==> Plain(k) && Plain(m[k])
    case _ => true
  }

  /** No hash map, at any depth, holds two keys that PHP takes for equal. */
  ghost predicate CollisionFree(a: AVal, e: Env)
    requires Admissible(e)
    decreases a
  {
    match a
    case AList(xs) => forall i :: 0 <= i < |xs| ==> CollisionFree(xs[i], e)
    case AMultiResult(xs) => forall i :: 0 <= i < |xs| ==> CollisionFree(xs[i], e)
    case AKeyValueList(ps) => forall i :: 0 <= i < |ps| ==> CollisionFree(ps[i].k, e) && CollisionFree(ps[i].v, e)
    case AOrderedMap(m) => forall k :: k in m ==> CollisionFree(k, e) && CollisionFree(m[k], e)
    case AHashMap(m) =>
      KeysApart(m, e) && forall k :: k in m ==> CollisionFree(k, e) && CollisionFree(m[k], e)
    case _ => true
  }

  ghost predicate KeysApart(m: map<AVal, AVal>, e: Env)
    requires Admissible(e)
  {
    forall k, l :: k in m && l in m && k != l ==> !Eq(ToPhp(k, e), ToPhp(l, e))
  }

  // ---------------------------------------------------------------------------------------
  //  Collecting
  // ---------------------------------------------------------------------------------------

  ghost predicate Unequal(ps: seq<Pair>) {
    forall i, j :: 0 <= i < j < |ps| ==> !Eq(ps[i].k, ps[j].k)
  }

  /** Each entry has the key of one pair and the value of another, and no pair serves twice. */
  ghost predicate Sources(out: seq<Pair>, ps: seq<Pair>, a: seq<nat>, b: seq<nat>) {
    && |a| == |b| == |out| && Injective(a, |ps|) && Injective(b, |ps|)
    && forall j :: 0 <= j < |out| ==> out[j] == Pair(ps[a[j]].k, ps[b[j]].v)
  }

  lemma PutSources(out: seq<Pair>, ps: seq<Pair>, p: Pair, a: seq<nat>, b: seq<nat>) returns (a': seq<nat>, b': seq<nat>)
    requires Sources(out, ps, a, b)
    ensures Sources(PutPair(out, p.k, p.v), ps + [p], a', b')
  {
    var n, at := |ps|, FindPair(out, p.k);
    var qs := ps + [p];
    assert forall i :: 0 <= i < n ==> qs[i] == ps[i];
    if at < |out| {
      a', b' := a, b[at := n];
    } else {
      a', b' := a + [n], b + [n];
    }
  }

  /** No entry is invented, and the keys of the result are pairwise unequal. */
  lemma {:induction false} CollectSources(ps: seq<Pair>) returns (a: seq<nat>, b: seq<nat>)
    ensures Sources(Collect(ps), ps, a, b) && Unequal(Collect(ps))
  {
    if ps == [] {
      a, b := [], [];
    } else {
      var n := |ps| - 1;
      var front, last := ps[..n], ps[n];
      assert ps == front + [last] && Collect(ps) == PutPair(Collect(front), last.k, last.v);
      a, b := CollectSources(front);
      PutUnequal(Collect(front), last);
      a, b := PutSources(Collect(front), front, last, a, b);
    }
  }

  lemma PutUnequal(out: seq<Pair>, p: Pair)
    requires Unequal(out)
    ensures Unequal(PutPair(out, p.k, p.v))
  {}

  lemma {:induction false} CollectIsNoLonger(ps: seq<Pair>)
    ensures |Collect(ps)| <= |ps|
  {
    if ps == [] {
    } else {
      CollectIsNoLonger(ps[..|ps| - 1]);
    }
  }

  lemma UnequalExtends(ps: seq<Pair>, p: Pair)
    ensures Unequal(ps + [p]) <==> Unequal(ps) && FindPair(ps, p.k) == |ps|
  {
    var qs := ps + [p];
    assert forall i :: 0 <= i < |ps| ==> qs[i] == ps[i];
    assert qs[|ps|] == p;
    if Unequal(qs) {
      assert forall i :: 0 <= i < |ps| ==> !Eq(qs[i].k, qs[|ps|].k);
    }
  }

  lemma {:induction false} UnequalIsKept(ps: seq<Pair>)
    requires Unequal(ps)
    ensures Collect(ps) == ps
  {
    if ps == [] {
    } else {
      var n := |ps| - 1;
      var front := ps[..n];
      assert ps == front + [ps[n]];
      UnequalExtends(front, ps[n]);
      UnequalIsKept(front);
      PutLength(front, ps[n]);
    }
  }

  /** When nothing is lost, the last key was new. */
  lemma LastIsNew(ps: seq<Pair>)
    requires ps != [] && |Collect(ps)| == |ps|
    ensures var n := |ps| - 1; |Collect(ps[..n])| == n && FindPair(Collect(ps[..n]), ps[n].k) == n
  {
    var n := |ps| - 1;
    CollectIsNoLonger(ps[..n]);
    PutLength(Collect(ps[..n]), ps[n]);
  }

  lemma {:induction false} KeptIsUnequal(ps: seq<Pair>)
    requires |Collect(ps)| == |ps|
    ensures Unequal(ps)
  {
    if ps == [] {
    } else {
      var n := |ps| - 1;
      LastIsNew(ps);
      KeptIsUnequal(ps[..n]);
      KeptExtends(ps[..n], ps[n]);
      assert ps == ps[..n] + [ps[n]];
    }
  }

  lemma KeptExtends(front: seq<Pair>, last: Pair)
    requires Unequal(front) && FindPair(Collect(front), last.k) == |front|
    ensures Unequal(front + [last])
  {
    UnequalIsKept(front);
    UnequalExtends(front, last);
  }

  /** Nothing is lost exactly when no two keys are equal, and then nothing changes at all. */
  lemma CollectIsLossless(ps: seq<Pair>)
    ensures Unequal(ps) <==> |Collect(ps)| == |ps|
    ensures Unequal(ps) ==> Collect(ps) == ps
  {
    if Unequal(ps) {
      UnequalIsKept(ps);
    }
    if |Collect(ps)| == |ps| {
      KeptIsUnequal(ps);
    }
  }

  lemma PutLength(out: seq<Pair>, p: Pair)
    ensures |PutPair(out, p.k, p.v)| == if FindPair(out, p.k) == |out| then |out| + 1 else |out|
    ensures FindPair(out, p.k) == |out| ==> PutPair(out, p.k, p.v) == out + [p]
  {}

  /** The pair that a stored entry comes from: the last one with its key. */
  lemma {:induction false} BuildSource(ps: seq<APair>, k: AVal) returns (d: nat)
    requires k in Build(ps)
    ensures d < |ps| && ps[d] == APair(k, Build(ps)[k])
  {
    var n := |ps| - 1;
    if ps[n].k == k {
      d := n;
    } else {
      d := BuildSource(ps[..n], k);
    }
  }

  lemma {:induction false} BuildHasEveryKey(ps: seq<APair>, i: nat)
    requires i < |ps|
    ensures ps[i].k in Build(ps)
  {
    if i == |ps| - 1 {
    } else {
      BuildHasEveryKey(ps[..|ps| - 1], i);
    }
  }

  lemma BuildSources(ps: seq<APair>, ks: seq<AVal>) returns (d: seq<nat>)
    requires Enumerates(ks, Build(ps))
    ensures |d| == |ks| && Injective(d, |ps|)
    ensures forall i :: 0 <= i < |ks| ==> ks[i] in Build(ps) && ps[d[i]] == APair(ks[i], Build(ps)[ks[i]])
  {
    d := [];
    for n := 0 to |ks|
      invariant |d| == n
      invariant forall i :: 0 <= i < n ==> d[i] < |ps| && ks[i] in Build(ps) && ps[d[i]] == APair(ks[i], Build(ps)[ks[i]])
    {
      assert ks[n] in ks;
      var j := BuildSource(ps, ks[n]);
      d := d + [j];
    }
  }

  /** Building from the entries of a map gives the map. */
  lemma BuildGivesBack(ps: seq<APair>, ks: seq<AVal>, m: map<AVal, AVal>)
    requires Enumerates(ks, m) && |ps| == |ks|
    requires forall i :: 0 <= i < |ks| ==> ks[i] in m && ps[i] == APair(ks[i], m[ks[i]])
    ensures Build(ps) == m
  {
    forall k | k in m ensures k in Build(ps) {
      assert k in ks;
      var i: nat :| i < |ks| && ks[i] == k;
      BuildHasEveryKey(ps, i);
    }
    forall k | k in Build(ps) ensures k in m && Build(ps)[k] == m[k] {
      var d := BuildSource(ps, k);
      assert ks[d] in m;
    }
  }

  // ---------------------------------------------------------------------------------------
  //  One trip leaves only plain values
  // ---------------------------------------------------------------------------------------

  lemma {:induction false} BuildOfPlain(ps: seq<APair>)
    requires forall i :: 0 <= i < |ps| ==> Plain(ps[i].k) && Plain(ps[i].v)
    ensures forall k :: k in Build(ps) ==> Plain(k) && Plain(Build(ps)[k])
  {
    forall k | k in Build(ps) ensures Plain(k) && Plain(Build(ps)[k]) {
      var d := BuildSource(ps, k);
    }
  }

  /** Whatever PHP sends, the server gets none of the three forms. */
  lemma {:induction false} ToAeroIsPlain(p: PHPValue, e: Env)
    requires Admissible(e)
    ensures Plain(ToAero(p, e))
    decreases p, 0
  {
    if p.List? {
      ItemsArePlain(p.items, e);
    } else if p.HashMap? {
      EntriesArePlain(p.entries, e);
    } else if p.OrderedMap? {
      PairsArePlain(p.pairs, e);
    } else if p.Json? {
      FieldsArePlain(p.fields, e);
    }
  }

  lemma {:induction false} ItemsArePlain(xs: seq<PHPValue>, e: Env)
    requires Admissible(e)
    ensures Plain(ToAero(List(xs), e))
    decreases xs, 0
  {
    forall i | 0 <= i < |xs| ensures Plain(ToAero(xs[i], e)) {
      ToAeroIsPlain(xs[i], e);
    }
  }

  lemma {:induction false} EntriesArePlain(xs: seq<Pair>, e: Env)
    requires Admissible(e)
    ensures Plain(ToAero(HashMap(xs), e))
    decreases xs, 0
  {
    var m := e.walk(xs);
    assert Permutes(m, |xs|);
    var ps := seq(|m|, i requires 0 <= i < |m| => APair(ToAero(xs[m[i]].k, e), ToAero(xs[m[i]].v, e)));
    forall i | 0 <= i < |m| ensures Plain(ps[i].k) && Plain(ps[i].v) {
      PairIsPlain(xs[m[i]], e);
    }
    BuildOfPlain(ps);
  }

  lemma {:induction false} PairsArePlain(xs: seq<Pair>, e: Env)
    requires Admissible(e)
    ensures Plain(ToAero(OrderedMap(xs), e))
    decreases xs, 0
  {
    var ps := seq(|xs|, i requires 0 <= i < |xs| => APair(ToAero(xs[i].k, e), ToAero(xs[i].v, e)));
    forall i | 0 <= i < |xs| ensures Plain(ps[i].k) && Plain(ps[i].v) {
      PairIsPlain(xs[i], e);
    }
    BuildOfPlain(ps);
  }

  lemma {:induction false} FieldsArePlain(xs: seq<Field>, e: Env)
    requires Admissible(e)
    ensures Plain(ToAero(Json(xs), e))
    decreases xs, 0
  {
    var m := e.walkFields(xs);
    assert Permutes(m, |xs|);
    var ps := seq(|m|, i requires 0 <= i < |m| => APair(AString(xs[m[i]].name), ToAero(xs[m[i]].v, e)));
    forall i | 0 <= i < |m| ensures Plain(ps[i].v) {
      ToAeroIsPlain(xs[m[i]].v, e);
    }
    BuildOfPlain(ps);
  }

  lemma PairIsPlain(x: Pair, e: Env)
    requires Admissible(e)
    ensures Plain(ToAero(x.k, e)) && Plain(ToAero(x.v, e))
    decreases x, 0
  {
    ToAeroIsPlain(x.k, e);
    ToAeroIsPlain(x.v, e);
  }

  /** One trip gets rid of the three forms at every depth. */
  lemma TripIsPlain(a: AVal, e: Env)
    requires Admissible(e)
    ensures Plain(Trip(a, e))
  {
    ToAeroIsPlain(ToPhp(a, e), e);
  }
}
